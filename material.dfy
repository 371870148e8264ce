/** `MaterialObject11`: the CAPE-OPEN 1.1 material facade. It keeps one handle
    per provider interface, widens the present phases before writes and
    flashes, answers reads of absent phases with zeros, and turns provider
    failures into `false`, zeros or a swallowed exception as the source does. */
module Material11 {
  import opened Common
  import opened ThermoProvider
  import opened PhaseRoles

  /** What `SetMaterial` receives, by its runtime type. */
  datatype BindArg =
    | NullArg
    | ThermoMaterial(provider: Provider)   // an ICapeThermoMaterial
    | Wrapper(other: MaterialObject11)     // another MaterialObject11
    | OtherObject                          // any other object

  /** `material as I` for the interface of `cap`: the provider, or null when it
      does not implement that interface. */
  function Cast(p: Provider?, cap: Capability): Provider? {
    if p != null && cap in p.capabilities then p else null
  }

  /** The provider a bind argument leads to. */
  function Bindee(arg: BindArg): Provider?
    reads if arg.Wrapper? then {arg.other} else {}
  {
    match arg
    case ThermoMaterial(p) => p
    case Wrapper(m) => m.thermoMaterial
    case _ => null
  }

  /** `PresentPhases.All(p => p.Value != phase.Value)`. */
  predicate Absent(present: seq<Phase>, phase: Phase) {
    forall p :: p in present ==> p.value != phase.value
  }

  // ---------------------------------------------------------------------------
  // Allowed phases
  // ---------------------------------------------------------------------------

  /** The three results of GetListOfAllowedPhase. */
  datatype AllowedPhaseList =
    AllowedPhaseList(phases: seq<Phase>, aggregation: Option<seq<string>>, keyCompoundId: Option<string>)

  /** The allowed phases given what GetPhaseList produced: one phase per provider
      label in provider order, or `[Vapor, Liquid]` with both other outputs null
      when the call failed or produced no label list. */
  function AllowedFromReply(reply: Result<PhaseListReply>, roles: Roles): (r: AllowedPhaseList)
    ensures reply.Err? || reply.value.labels.None? ==>
              r == AllowedPhaseList([roles.vapor, roles.liquid], None, None)
    ensures reply.Ok? && reply.value.labels.Some? ==>
              && |r.phases| == |reply.value.labels.value|
              && (forall i :: 0 <= i < |r.phases| ==> r.phases[i].value == reply.value.labels.value[i])
              && r.aggregation == reply.value.aggregation
              && r.keyCompoundId == reply.value.keyCompound
  {
    match reply
    case Err(_) => AllowedPhaseList([roles.vapor, roles.liquid], None, None)
    case Ok(PhaseListReply(labels, aggregation, key)) =>
      match labels
      case None => AllowedPhaseList([roles.vapor, roles.liquid], None, None)
      case Some(ls) => AllowedPhaseList(PhasesOfLabels(ls), aggregation, key)
  }

  // ---------------------------------------------------------------------------
  // Flash specifications
  // ---------------------------------------------------------------------------

  /** The five named flashes. */
  datatype FlashKind = TP | PH | TH | TVF | PV

  /** The two fixed specifications of a named flash. TP and PH pass an empty
      basis; TH, TVF and PV pass a null one. */
  function FlashSpecs(kind: FlashKind): (FlashSpec, FlashSpec) {
    match kind
    case TP => (FlashSpec("temperature", Some(""), "Overall"), FlashSpec("pressure", Some(""), "Overall"))
    case PH => (FlashSpec("enthalpy", Some(""), "Overall"), FlashSpec("pressure", Some(""), "Overall"))
    case TH => (FlashSpec("temperature", None, "Overall"), FlashSpec("enthalpy", None, "Overall"))
    case TVF => (FlashSpec("temperature", None, "Overall"), FlashSpec("phaseFraction", Some("Mole"), "gas"))
    case PV => (FlashSpec("pressure", None, "Overall"), FlashSpec("phaseFraction", Some("Mole"), "gas"))
  }

  /** The equilibrium request a named flash issues. */
  function FlashCall(kind: FlashKind): Call {
    CalcEquilibrium(FlashSpecs(kind).0, FlashSpecs(kind).1, "unspecified")
  }

  // ---------------------------------------------------------------------------
  // Composition
  // ---------------------------------------------------------------------------

  /** `TryGetValue`: the fraction of `id`, or 0 when the map has none. */
  function FractionOf(composition: map<string, real>, id: string): real {
    if id in composition then composition[id] else 0.0
  }

  /** The fraction vector the Composition setter builds: one entry per compound,
      in compound order. */
  function Reorder(composition: map<string, real>, ids: seq<string>): (v: seq<real>)
    ensures |v| == |ids|
    ensures forall i :: 0 <= i < |ids| ==> v[i] == FractionOf(composition, ids[i])
  {
    seq(|ids|, i requires 0 <= i < |ids| => FractionOf(composition, ids[i]))
  }

  /** The Composition setter's loop: the vector it builds over the first `n`
      compounds, or the exception the loop stops with. An index past the
      compound list is detected before a null map is dereferenced. */
  function CompositionVector(value: Option<map<string, real>>, ids: seq<string>, n: nat): (r: Result<seq<real>>)
    ensures r.Ok? <==> n == 0 || (value.Some? && n <= |ids|)
    ensures r.Err? ==> r.error == (if value.None? && 0 < |ids| then NullReference else OutOfRange)
    ensures r.Ok? ==> |r.value| == n
    ensures r.Ok? && n > 0 ==> forall j :: 0 <= j < n ==> r.value[j] == FractionOf(value.value, ids[j])
  {
    if n == 0 then Ok([])
    else if |ids| == 0 then Err(OutOfRange)
    else if value.None? then Err(NullReference)
    else if n > |ids| then Err(OutOfRange)
    else Ok(Reorder(value.value, ids[..n]))
  }

  /** The Composition getter's dictionary: compound `i` paired with fraction `i`,
      added in compound order, with the exception the first failing `Add` throws. */
  function Pair(ids: seq<string>, fractions: Option<seq<real>>): (r: Result<map<string, real>>)
    ensures 0 < |ids| && fractions.None? ==> r == Err(NullReference)
    ensures fractions.Some? && |fractions.value| < |ids| ==> r.Err?
    ensures r.Ok? ==> r.value.Keys == set id | id in ids
    decreases |ids|
  {
    if |ids| == 0 then Ok(map[])
    else
      var i := |ids| - 1;
      match Pair(ids[..i], fractions)
      case Err(e) => Err(e)
      case Ok(m) =>
        if fractions.None? then Err(NullReference)
        else if i >= |fractions.value| then Err(OutOfRange)
        else if ids[i] in m then Err(ArgumentError)
        else Ok(m[ids[i] := fractions.value[i]])
  }

  predicate Distinct(ids: seq<string>) {
    forall i, j :: 0 <= i < j < |ids| ==> ids[i] != ids[j]
  }

  /** `m` maps each of `ids` to the fraction at its own position, and nothing else. */
  predicate PairsWith(m: map<string, real>, ids: seq<string>, fractions: seq<real>) {
    && m.Keys == (set id | id in ids)
    && forall i :: 0 <= i < |ids| ==> ids[i] in m && i < |fractions| && m[ids[i]] == fractions[i]
  }

  lemma DistinctSnoc(prefix: seq<string>, x: string)
    ensures Distinct(prefix + [x]) <==> Distinct(prefix) && x !in prefix
  {
    var ids := prefix + [x];
    if x in prefix {
      var j :| 0 <= j < |prefix| && prefix[j] == x;
      assert ids[j] == ids[|prefix|];
    }
    if Distinct(ids) {
      forall i, j | 0 <= i < j < |prefix| ensures prefix[i] != prefix[j] {
        assert ids[i] == prefix[i] && ids[j] == prefix[j];
      }
    }
  }

  lemma PairsWithSnoc(m: map<string, real>, prefix: seq<string>, x: string, fractions: seq<real>)
    requires PairsWith(m, prefix, fractions) && x !in prefix && |prefix| < |fractions|
    ensures PairsWith(m[x := fractions[|prefix|]], prefix + [x], fractions)
  {
    var ids := prefix + [x];
    var m' := m[x := fractions[|prefix|]];
    assert (set id | id in ids) == (set id | id in prefix) + {x};
    forall k | 0 <= k < |ids| ensures ids[k] in m' && m'[ids[k]] == fractions[k] {
      if k < |prefix| {
        assert ids[k] == prefix[k];
      }
    }
  }

  /** Pairing succeeds exactly when the compound ids are distinct and there is a
      fraction for each of them; the dictionary then maps each compound to its
      own fraction and has no other key. */
  lemma {:induction false} PairSpec(ids: seq<string>, fractions: Option<seq<real>>)
    ensures Pair(ids, fractions).Ok? <==>
              Distinct(ids) && (|ids| == 0 || (fractions.Some? && |ids| <= |fractions.value|))
    ensures Pair(ids, fractions).Ok? && |ids| > 0 ==> PairsWith(Pair(ids, fractions).value, ids, fractions.value)
    ensures Pair(ids, fractions).Ok? && |ids| == 0 ==> Pair(ids, fractions).value == map[]
    decreases |ids|
  {
    if |ids| > 0 {
      var i := |ids| - 1;
      var prefix := ids[..i];
      PairSpec(prefix, fractions);
      assert ids == prefix + [ids[i]];
      DistinctSnoc(prefix, ids[i]);
      if Pair(prefix, fractions).Ok? && fractions.Some? && i < |fractions.value| {
        var m := Pair(prefix, fractions).value;
        if i > 0 {
          assert ids[i] in m <==> ids[i] in prefix;
        }
        if ids[i] !in prefix {
          PairsWithSnoc(m, prefix, ids[i], fractions.value);
        }
      }
    }
  }

  /** Writing a composition and reading it back gives every known compound its
      supplied fraction, and 0 to the compounds the supplied map lacks. */
  lemma CompositionRoundTrip(ids: seq<string>, composition: map<string, real>)
    requires Distinct(ids)
    ensures Pair(ids, Some(Reorder(composition, ids))) == Ok(map id | id in ids :: FractionOf(composition, id))
  {
    var v := Reorder(composition, ids);
    PairSpec(ids, Some(v));
    if |ids| > 0 {
      var m := Pair(ids, Some(v)).value;
      forall id | id in ids ensures id in m && m[id] == FractionOf(composition, id) {
        var k :| 0 <= k < |ids| && ids[k] == id;
      }
      assert m == map id | id in ids :: FractionOf(composition, id);
    } else {
      assert (map id | id in ids :: FractionOf(composition, id)) == map[];
    }
  }

  /** The Composition getter's loop: adds compound `i` with fraction `i` to a
      fresh dictionary, in order. */
  method PairFractions(ids: seq<string>, fractions: Option<seq<real>>) returns (r: Result<map<string, real>>)
    ensures r == Pair(ids, fractions)
  {
    var composition: map<string, real> := map[];
    var i := 0;
    while i < |ids|
      invariant 0 <= i <= |ids|
      invariant Pair(ids[..i], fractions) == Ok(composition)
    {
      assert ids[..i + 1][..i] == ids[..i];
      if fractions.None? {
        PairErrorPersists(ids, fractions, i + 1);
        return Err(NullReference);
      }
      if i >= |fractions.value| {
        PairErrorPersists(ids, fractions, i + 1);
        return Err(OutOfRange);
      }
      if ids[i] in composition {
        PairErrorPersists(ids, fractions, i + 1);
        return Err(ArgumentError);
      }
      composition := composition[ids[i] := fractions.value[i]];
      i := i + 1;
    }
    assert ids[..i] == ids;
    r := Ok(composition);
  }

  /** Once adding fails, the exception stands for the whole list. */
  lemma {:induction false} PairErrorPersists(ids: seq<string>, fractions: Option<seq<real>>, k: nat)
    requires k <= |ids| && Pair(ids[..k], fractions).Err?
    ensures Pair(ids, fractions) == Pair(ids[..k], fractions)
    decreases |ids| - k
  {
    if k < |ids| {
      assert ids[..k + 1][..k] == ids[..k];
      PairErrorPersists(ids, fractions, k + 1);
    } else {
      assert ids[..k] == ids;
    }
  }

  // ---------------------------------------------------------------------------
  // Compound constants
  // ---------------------------------------------------------------------------

  /** The returned array holds one scalar that Convert.ToDouble accepts. */
  predicate ScalarConstant(value: Option<seq<Boxed>>) {
    value.Some? && |value.value| == 1 && value.value[0].Convertible?
  }

  /** The returned array holds one double[] of one element. */
  predicate VectorConstant(value: Option<seq<Boxed>>) {
    value.Some? && |value.value| == 1 && value.value[0].DoubleArray? && |value.value[0].elements| == 1
  }

  /** GetCompoundConstPropDouble's coercion of the provider's object[]: first
      Convert.ToDouble on the single element, then the single element of a
      double[], and 0 whenever both throw. */
  function CoerceConstant(value: Option<seq<Boxed>>): (x: real)
    ensures ScalarConstant(value) ==> x == value.value[0].asDouble
    ensures VectorConstant(value) ==> x == value.value[0].elements[0]
    ensures !ScalarConstant(value) && !VectorConstant(value) ==> x == 0.0
  {
    match value
    case None => 0.0                     // SingleOrDefault and Single throw on null
    case Some(elements) =>
      if |elements| != 1 then 0.0        // none: Convert.ToDouble(null); several: both throw
      else match elements[0]
        case NullBox => 0.0
        case Convertible(d) => d
        case DoubleArray(ds) => (match SingleOrDefault(ds) case Ok(d) => d case Err(_) => 0.0)
        case Inconvertible => 0.0        // `as double[]` is null, SingleOrDefault throws
  }

  /** The two shapes a provider may use for a molecular weight read the same. */
  lemma ConstantShapesAgree(d: real)
    ensures CoerceConstant(Some([Convertible(d)])) == CoerceConstant(Some([DoubleArray([d])])) == d
  {
  }

  // ---------------------------------------------------------------------------
  // What a provider call yields, for the contracts below
  // ---------------------------------------------------------------------------

  /** GetPhaseList through the phase handle, as seen by GetListOfAllowedPhase. */
  function PhaseListOutcome(p: Provider?): Result<PhaseListReply>
    reads p
  {
    if p == null then Err(NullReference)
    else if Call.GetPhaseList in p.failing then Err(ProviderFailure)
    else Ok(p.phaseList)
  }

  /** The compound list UpdateCompoundList stores: null when the handle is
      null, the call throws or the provider has none. */
  function ListedCompounds(p: Provider?): Option<seq<string>>
    reads p
  {
    if p == null || Call.GetCompoundList in p.failing then None else p.compoundIds
  }

  /** The calls a routine makes through handle `h`: `calls` when `h` is set. */
  function Through(h: Provider?, calls: seq<Call>): seq<Call> {
    if h == null then [] else calls
  }

  /** A property read through the material handle. */
  function ReadOutcome(p: Provider?, key: PropKey): Result<Option<seq<real>>>
    reads p
  {
    if p == null then Err(NullReference)
    else if Call.GetProp(key) in p.failing then Err(ProviderFailure)
    else Ok(Lookup(p.store, key))
  }

  /** A property write through the material handle. */
  function WriteOutcome(p: Provider?, key: PropKey, values: seq<real>): Outcome
    reads p
  {
    if p == null then Fail(NullReference)
    else if Call.SetProp(key, values) in p.failing then Fail(ProviderFailure)
    else Pass
  }

  class MaterialObject11 {
    // the seven interface handles, all casts of one provider object
    var thermoMaterial: Provider?
    var materialContext: Provider?
    var thermoPhases: Provider?
    var thermoCompounds: Provider?
    var propertyRoutine: Provider?
    var equilibriumRoutine: Provider?
    var universalConstant: Provider?
    // state of the MaterialObject base class
    var presentPhases: seq<Phase>
    var allowedPhases: seq<Phase>
    var compounds: seq<string>
    var compoundNum: nat
    var aliasName: Option<seq<string>>
    const roles: RoleTable

    /** Every handle is the cast of the material handle to its interface. */
    ghost predicate Valid()
      reads this
    {
      && materialContext == Cast(thermoMaterial, MaterialContext)
      && thermoPhases == Cast(thermoMaterial, PhaseEnumeration)
      && thermoCompounds == Cast(thermoMaterial, CompoundEnumeration)
      && propertyRoutine == Cast(thermoMaterial, PropertyRoutine)
      && equilibriumRoutine == Cast(thermoMaterial, EquilibriumRoutine)
      && universalConstant == Cast(thermoMaterial, UniversalConstant)
    }

    /** Whether a material object is bound; an unbound wrapper holds no handle at all. */
    function IsValid(): (b: bool)
      reads this
      ensures Valid() && !b ==>
                && materialContext == null && thermoPhases == null && thermoCompounds == null
                && propertyRoutine == null && equilibriumRoutine == null && universalConstant == null
      ensures Valid() && b ==> thermoMaterial != null && (thermoPhases != null <==> PhaseEnumeration in thermoMaterial.capabilities)
    {
      thermoMaterial != null
    }

    /** The provider calls made so far through this object's handles. */
    ghost function Trace(): seq<Call>
      reads this, thermoMaterial
    {
      if thermoMaterial == null then [] else thermoMaterial.trace
    }

    /** `new MaterialObject11()`: an unbound material (SetMaterial(null) binds nothing). */
    constructor (roles: RoleTable)
      ensures Valid() && !IsValid() && this.roles == roles
      ensures presentPhases == [] && allowedPhases == [] && compounds == [] && compoundNum == 0
      ensures aliasName == None
    {
      thermoMaterial, materialContext, thermoPhases, thermoCompounds := null, null, null, null;
      propertyRoutine, equilibriumRoutine, universalConstant := null, null, null;
      presentPhases, allowedPhases, compounds, compoundNum := [], [], [], 0;
      aliasName := None;
      this.roles := roles;
    }

    // -------------------------------------------------------------------------
    // Binding and disposal
    // -------------------------------------------------------------------------

    /** Binds to a provider, directly or through another wrapper's material
        handle, then assigns the phase roles and refreshes the compound list.
        Null binds nothing; any other type is rejected. Binding through a
        wrapper whose handle is null keeps the current handles and still
        reports success. */
    method SetMaterial(arg: BindArg) returns (r: Result<bool>)
      requires Valid()
      modifies this, roles, thermoMaterial, Bindee(arg)
      decreases if arg.Wrapper? then 1 else 0
      ensures Valid() && Bindee(arg) == old(Bindee(arg))
      ensures arg.NullArg? ==> r == Ok(false) && unchanged(this, roles) && (thermoMaterial != null ==> unchanged(thermoMaterial))
      ensures arg.OtherObject? ==>
                r == Err(ArgumentError) && unchanged(this, roles) && (thermoMaterial != null ==> unchanged(thermoMaterial))
      ensures arg.ThermoMaterial? || arg.Wrapper? ==>
                && r == Ok(true)
                && roles.Current() == AssignRoles(allowedPhases, old(roles.Current()))
                && aliasName == ListedCompounds(thermoCompounds)
      ensures Bindee(arg) != null ==>
                && thermoMaterial == Bindee(arg)
                && thermoMaterial.Held() == old(Bindee(arg).Held())
                && thermoMaterial.store == old(Bindee(arg).store)
      ensures arg.ThermoMaterial? ==>
                Trace() == old(Bindee(arg).trace) + Through(thermoCompounds, [Call.GetCompoundList])
      ensures arg.Wrapper? && Bindee(arg) != null ==>
                Trace() == old(Bindee(arg).trace) + Through(thermoCompounds, [Call.GetCompoundList, Call.GetCompoundList])
      ensures arg.Wrapper? && Bindee(arg) == null ==>
                && thermoMaterial == old(thermoMaterial)
                && Trace() == old(Trace()) + Through(thermoCompounds, [Call.GetCompoundList])
                && (thermoMaterial != null ==>
                      thermoMaterial.Held() == old(thermoMaterial.Held()) && thermoMaterial.store == old(thermoMaterial.store))
      ensures Bindee(arg) != null && old(thermoMaterial) != null && old(thermoMaterial) != Bindee(arg) ==>
                unchanged(old(thermoMaterial))
      ensures presentPhases == old(presentPhases) && allowedPhases == old(allowedPhases)
      ensures compounds == old(compounds) && compoundNum == old(compoundNum)
    {
      match arg {
        case NullArg =>
          return Ok(false);
        case OtherObject =>
          return Err(ArgumentError);
        case ThermoMaterial(p) =>
          BindHandles(p);
        case Wrapper(m) =>
          var inner := m.thermoMaterial;
          var direct := if inner == null then NullArg else ThermoMaterial(inner);
          assert Bindee(direct) == Bindee(arg);
          var ignored := SetMaterial(direct);
      }
      AssignPhaseRoles();
      var ids := UpdateCompoundList();
      r := Ok(true);
    }

    /** The handle step of SetMaterial: each handle becomes `p` cast to its interface. */
    method BindHandles(p: Provider)
      modifies this`thermoMaterial, this`materialContext, this`thermoPhases, this`thermoCompounds
      modifies this`propertyRoutine, this`equilibriumRoutine, this`universalConstant
      ensures Valid() && thermoMaterial == p
    {
      thermoMaterial := p;
      materialContext := Cast(p, MaterialContext);
      thermoPhases := Cast(p, PhaseEnumeration);
      thermoCompounds := Cast(p, CompoundEnumeration);
      propertyRoutine := Cast(p, PropertyRoutine);
      equilibriumRoutine := Cast(p, EquilibriumRoutine);
      universalConstant := Cast(p, UniversalConstant);
    }

    /** The role step of SetMaterial: the first "vap" label becomes the vapor
        role, the first "solid" label (else the first "liq" label) the liquid role. */
    method AssignPhaseRoles()
      modifies roles
      ensures roles.Current() == AssignRoles(allowedPhases, old(roles.Current()))
    {
      var chosen := AssignRoles(allowedPhases, roles.Current());
      roles.vapor, roles.liquid := chosen.vapor, chosen.liquid;
    }

    /** Re-reads the compound ids into `aliasName`; a failing or missing
        compound interface leaves it null. */
    method UpdateCompoundList() returns (ids: Option<seq<string>>)
      requires Valid()
      modifies this`aliasName, thermoMaterial
      ensures aliasName == ids && ids == old(ListedCompounds(thermoCompounds))
      ensures Trace() == old(Trace()) + Through(thermoCompounds, [Call.GetCompoundList])
      ensures thermoMaterial != null ==> thermoMaterial.Held() == old(thermoMaterial.Held())
      ensures thermoMaterial != null ==> thermoMaterial.store == old(thermoMaterial.store)
    {
      ids := None;
      if thermoCompounds != null {
        var reply := thermoCompounds.GetCompoundList();
        if reply.Ok? {
          ids := reply.value;
        }
      }
      aliasName := ids;
    }

    /** Drops all seven handles; the material is no longer valid. */
    method Dispose()
      requires Valid()
      modifies this`thermoMaterial, this`materialContext, this`thermoPhases, this`thermoCompounds
      modifies this`propertyRoutine, this`equilibriumRoutine, this`universalConstant
      ensures Valid() && !IsValid()
      ensures materialContext == null && thermoPhases == null && thermoCompounds == null
      ensures propertyRoutine == null && equilibriumRoutine == null && universalConstant == null
      ensures old(!IsValid()) ==> unchanged(this)
    {
      thermoMaterial, materialContext, thermoPhases, thermoCompounds := null, null, null, null;
      propertyRoutine, equilibriumRoutine, universalConstant := null, null, null;
    }

    /** A new wrapper bound to a new material object of the same provider that
        holds a copy of this one's data. */
    method Duplicate() returns (r: Result<MaterialObject11>)
      requires Valid()
      modifies thermoMaterial, roles
      ensures thermoMaterial == null ==> r == Err(NullReference)
      ensures thermoMaterial != null ==>
                (r.Err? <==> Call.CreateMaterial in thermoMaterial.failing ||
                             Call.CopyFromMaterial in thermoMaterial.failing)
      ensures r.Ok? ==>
                && fresh(r.value) && r.value.Valid() && r.value.IsValid() && r.value.roles == roles
                && fresh(r.value.thermoMaterial)
                && r.value.thermoMaterial.capabilities == thermoMaterial.capabilities
                && r.value.thermoMaterial.failing == thermoMaterial.failing
                && r.value.thermoMaterial.Held() == old(thermoMaterial.Held())
                && r.value.thermoMaterial.store == old(thermoMaterial.store)
      ensures thermoMaterial != null ==>
                && Trace() == old(Trace()) + [Call.CreateMaterial]
                && thermoMaterial.Held() == old(thermoMaterial.Held())
                && thermoMaterial.store == old(thermoMaterial.store)
      ensures roles.Current() == old(roles.Current())
    {
      if thermoMaterial == null {
        return Err(NullReference);
      }
      var created := thermoMaterial.CreateMaterial();
      if created.Err? {
        return Err(created.error);
      }
      var copy := created.value;
      var copied := copy.CopyFromMaterial(thermoMaterial);
      if copied.Fail? {
        return Err(copied.error);
      }
      var mo := new MaterialObject11(roles);
      ghost var before := roles.Current();
      var bound := mo.SetMaterial(ThermoMaterial(copy));
      assert AssignRoles([], before) == before;
      r := Ok(mo);
    }

    // -------------------------------------------------------------------------
    // Flashes
    // -------------------------------------------------------------------------

    /** The generic flash: widens the present phases to the allowed ones, then
        asks for the equilibrium; any exception (a null handle included) is `false`. */
    method DoFlash(spec1: FlashSpec, spec2: FlashSpec, solutionType: string, showWarning: bool)
      returns (ok: bool)
      requires Valid()
      modifies this`presentPhases, thermoMaterial
      ensures presentPhases == allowedPhases
      ensures Trace() == old(Trace()) + Through(equilibriumRoutine, [CalcEquilibrium(spec1, spec2, solutionType)])
      ensures ok <==> equilibriumRoutine != null &&
                      CalcEquilibrium(spec1, spec2, solutionType) !in equilibriumRoutine.failing
      ensures thermoMaterial != null ==> thermoMaterial.Held() == old(thermoMaterial.Held())
      ensures equilibriumRoutine == null && thermoMaterial != null ==> unchanged(thermoMaterial)
    {
      presentPhases := allowedPhases;
      if equilibriumRoutine == null {
        return false;
      }
      var outcome := equilibriumRoutine.Calculate(CalcEquilibrium(spec1, spec2, solutionType));
      ok := outcome.Pass?;
    }

    /** A named flash: `false` with nothing changed when there is no
        equilibrium interface, otherwise the generic flash with its fixed specifications. */
    method NamedFlash(kind: FlashKind, showWarning: bool) returns (ok: bool)
      requires Valid()
      modifies this`presentPhases, thermoMaterial
      ensures equilibriumRoutine == null ==>
                !ok && unchanged(this) && (thermoMaterial != null ==> unchanged(thermoMaterial))
      ensures thermoMaterial != null ==> thermoMaterial.Held() == old(thermoMaterial.Held())
      ensures equilibriumRoutine != null ==>
                && presentPhases == allowedPhases
                && Trace() == old(Trace()) + [FlashCall(kind)]
                && (ok <==> FlashCall(kind) !in equilibriumRoutine.failing)
    {
      if equilibriumRoutine == null {
        return false;
      }
      var (spec1, spec2) := FlashSpecs(kind);
      ok := DoFlash(spec1, spec2, "unspecified", showWarning);
    }

    method DoTPFlash(showWarning: bool) returns (ok: bool)
      requires Valid()
      modifies this`presentPhases, thermoMaterial
      ensures equilibriumRoutine == null ==>
                !ok && unchanged(this) && (thermoMaterial != null ==> unchanged(thermoMaterial))
      ensures thermoMaterial != null ==> thermoMaterial.Held() == old(thermoMaterial.Held())
      ensures equilibriumRoutine != null ==> presentPhases == allowedPhases && Trace() == old(Trace()) + [FlashCall(TP)]
      ensures ok <==> equilibriumRoutine != null && FlashCall(TP) !in equilibriumRoutine.failing
    {
      ok := NamedFlash(TP, showWarning);
    }

    method DoPHFlash(showWarning: bool) returns (ok: bool)
      requires Valid()
      modifies this`presentPhases, thermoMaterial
      ensures equilibriumRoutine == null ==>
                !ok && unchanged(this) && (thermoMaterial != null ==> unchanged(thermoMaterial))
      ensures thermoMaterial != null ==> thermoMaterial.Held() == old(thermoMaterial.Held())
      ensures equilibriumRoutine != null ==> presentPhases == allowedPhases && Trace() == old(Trace()) + [FlashCall(PH)]
      ensures ok <==> equilibriumRoutine != null && FlashCall(PH) !in equilibriumRoutine.failing
    {
      ok := NamedFlash(PH, showWarning);
    }

    method DoTHFlash(showWarning: bool) returns (ok: bool)
      requires Valid()
      modifies this`presentPhases, thermoMaterial
      ensures equilibriumRoutine == null ==>
                !ok && unchanged(this) && (thermoMaterial != null ==> unchanged(thermoMaterial))
      ensures thermoMaterial != null ==> thermoMaterial.Held() == old(thermoMaterial.Held())
      ensures equilibriumRoutine != null ==> presentPhases == allowedPhases && Trace() == old(Trace()) + [FlashCall(TH)]
      ensures ok <==> equilibriumRoutine != null && FlashCall(TH) !in equilibriumRoutine.failing
    {
      ok := NamedFlash(TH, showWarning);
    }

    method DoTVFFlash(showWarning: bool) returns (ok: bool)
      requires Valid()
      modifies this`presentPhases, thermoMaterial
      ensures equilibriumRoutine == null ==>
                !ok && unchanged(this) && (thermoMaterial != null ==> unchanged(thermoMaterial))
      ensures thermoMaterial != null ==> thermoMaterial.Held() == old(thermoMaterial.Held())
      ensures equilibriumRoutine != null ==> presentPhases == allowedPhases && Trace() == old(Trace()) + [FlashCall(TVF)]
      ensures ok <==> equilibriumRoutine != null && FlashCall(TVF) !in equilibriumRoutine.failing
    {
      ok := NamedFlash(TVF, showWarning);
    }

    method DoPVFlash(showWarning: bool) returns (ok: bool)
      requires Valid()
      modifies this`presentPhases, thermoMaterial
      ensures equilibriumRoutine == null ==>
                !ok && unchanged(this) && (thermoMaterial != null ==> unchanged(thermoMaterial))
      ensures thermoMaterial != null ==> thermoMaterial.Held() == old(thermoMaterial.Held())
      ensures equilibriumRoutine != null ==> presentPhases == allowedPhases && Trace() == old(Trace()) + [FlashCall(PV)]
      ensures ok <==> equilibriumRoutine != null && FlashCall(PV) !in equilibriumRoutine.failing
    {
      ok := NamedFlash(PV, showWarning);
    }

    // -------------------------------------------------------------------------
    // Phases
    // -------------------------------------------------------------------------

    /** The provider's phase labels as phases, or `[Vapor, Liquid]` when the
        phase interface is missing, throws or returns null labels. */
    method GetListOfAllowedPhase() returns (r: AllowedPhaseList)
      requires Valid()
      modifies thermoMaterial
      ensures r == old(AllowedFromReply(PhaseListOutcome(thermoPhases), roles.Current()))
      ensures Trace() == old(Trace()) + Through(thermoPhases, [Call.GetPhaseList])
      ensures thermoMaterial != null ==> thermoMaterial.Held() == old(thermoMaterial.Held())
      ensures thermoMaterial != null ==> thermoMaterial.store == old(thermoMaterial.store)
    {
      var reply: Result<PhaseListReply> := Err(NullReference);
      if thermoPhases != null {
        reply := thermoPhases.GetPhaseList();
      }
      match reply {
        case Err(_) =>
          r := AllowedPhaseList([roles.vapor, roles.liquid], None, None);
        case Ok(PhaseListReply(labels, aggregation, key)) =>
          if labels.None? {
            r := AllowedPhaseList([roles.vapor, roles.liquid], None, None);
          } else {
            r := AllowedPhaseList(PhasesOfLabels(labels.value), aggregation, key);
          }
      }
    }

    // -------------------------------------------------------------------------
    // Overall properties and composition
    // -------------------------------------------------------------------------

    method GetOverallPropList(propName: string, basis: Basis) returns (r: Result<Option<seq<real>>>)
      requires Valid()
      modifies thermoMaterial
      ensures r == old(ReadOutcome(thermoMaterial, OverallKey(propName, BasisToken(basis))))
      ensures Trace() == old(Trace()) + Through(thermoMaterial, [Call.GetProp(OverallKey(propName, BasisToken(basis)))])
      ensures thermoMaterial != null ==> thermoMaterial.Held() == old(thermoMaterial.Held())
      ensures thermoMaterial != null ==> thermoMaterial.store == old(thermoMaterial.store)
    {
      if thermoMaterial == null {
        return Err(NullReference);
      }
      r := thermoMaterial.GetProp(OverallKey(propName, BasisToken(basis)));
    }

    method SetOverallPropList(propName: string, basis: Basis, values: seq<real>) returns (r: Outcome)
      requires Valid()
      modifies thermoMaterial
      ensures r == old(WriteOutcome(thermoMaterial, OverallKey(propName, BasisToken(basis)), values))
      ensures Trace() == old(Trace()) + Through(thermoMaterial, [Call.SetProp(OverallKey(propName, BasisToken(basis)), values)])
      ensures r.Pass? ==> thermoMaterial.store == old(thermoMaterial.store)[OverallKey(propName, BasisToken(basis)) := values]
      ensures r.Fail? && thermoMaterial != null ==> thermoMaterial.store == old(thermoMaterial.store)
      ensures thermoMaterial != null ==> thermoMaterial.Held() == old(thermoMaterial.Held())
    {
      if thermoMaterial == null {
        return Fail(NullReference);
      }
      r := thermoMaterial.SetProp(OverallKey(propName, BasisToken(basis)), values);
    }

    /** The Composition getter: the mole fractions paired with the compound ids. */
    method GetComposition() returns (r: Result<map<string, real>>)
      requires Valid()
      modifies thermoMaterial
      ensures var read := old(ReadOutcome(thermoMaterial, OverallKey("fraction", "Mole")));
              r == if read.Err? then Err(read.error) else Pair(compounds, read.value)
      ensures Trace() == old(Trace()) + Through(thermoMaterial, [Call.GetProp(OverallKey("fraction", "Mole"))])
      ensures thermoMaterial != null ==> thermoMaterial.Held() == old(thermoMaterial.Held())
      ensures thermoMaterial != null ==> thermoMaterial.store == old(thermoMaterial.store)
    {
      var compoundList := compounds;
      var read := GetOverallPropList("fraction", Mole);
      if read.Err? {
        return Err(read.error);
      }
      r := PairFractions(compoundList, read.value);
    }

    /** The Composition setter: the supplied fractions reordered into compound
        order, 0 for a compound the map lacks, written as the overall mole fractions. */
    method SetComposition(value: Option<map<string, real>>) returns (r: Outcome)
      requires Valid()
      modifies thermoMaterial
      ensures CompositionVector(value, compounds, compoundNum).Err? ==>
                r == Fail(CompositionVector(value, compounds, compoundNum).error) && Trace() == old(Trace())
      ensures CompositionVector(value, compounds, compoundNum).Ok? ==>
                var v := CompositionVector(value, compounds, compoundNum).value;
                && r == old(WriteOutcome(thermoMaterial, OverallKey("fraction", "Mole"), v))
                && Trace() == old(Trace()) + Through(thermoMaterial, [Call.SetProp(OverallKey("fraction", "Mole"), v)])
                && (r.Pass? ==> thermoMaterial.store == old(thermoMaterial.store)[OverallKey("fraction", "Mole") := v])
      ensures r.Fail? && thermoMaterial != null ==> thermoMaterial.store == old(thermoMaterial.store)
      ensures thermoMaterial != null ==> thermoMaterial.Held() == old(thermoMaterial.Held())
    {
      var composition := new real[compoundNum];
      for i := 0 to compoundNum
        modifies composition
        invariant i > 0 ==> |compounds| > 0 && value.Some? && i <= |compounds|
        invariant forall j :: 0 <= j < i ==> composition[j] == FractionOf(value.value, compounds[j])
      {
        if i >= |compounds| {
          return Fail(OutOfRange);
        }
        if value.None? {
          return Fail(NullReference);
        }
        composition[i] := FractionOf(value.value, compounds[i]);
      }
      assert composition[..] == CompositionVector(value, compounds, compoundNum).value;
      r := SetOverallPropList("fraction", Mole, composition[..]);
    }

    // -------------------------------------------------------------------------
    // Vapor fraction
    // -------------------------------------------------------------------------

    /** The VaporFraction getter: the vapor phase's mole phase fraction, 0 when
        the provider has none; no present-phase guard and no calculation. */
    method GetVaporFraction() returns (r: Result<real>)
      requires Valid()
      modifies thermoMaterial
      ensures var read := old(ReadOutcome(thermoMaterial, SinglePhaseKey("phaseFraction", roles.vapor.value, "Mole")));
              r == match read
                   case Err(e) => Err(e)
                   case Ok(None) => Ok(0.0)
                   case Ok(Some(a)) => SingleOrDefault(a)
      ensures Trace() == old(Trace()) +
                Through(thermoMaterial, [Call.GetProp(SinglePhaseKey("phaseFraction", roles.vapor.value, "Mole"))])
      ensures thermoMaterial != null ==> thermoMaterial.Held() == old(thermoMaterial.Held())
      ensures thermoMaterial != null ==> thermoMaterial.store == old(thermoMaterial.store)
    {
      if thermoMaterial == null {
        return Err(NullReference);
      }
      var read := thermoMaterial.GetProp(SinglePhaseKey("phaseFraction", roles.vapor.value, "Mole"));
      match read {
        case Err(e) => r := Err(e);
        case Ok(None) => r := Ok(0.0);
        case Ok(Some(a)) => r := SingleOrDefault(a);
      }
    }

    /** The VaporFraction setter: widens the present phases when the vapor
        phase is not among them, then writes the one-element vector. */
    method SetVaporFraction(value: real) returns (r: Outcome)
      requires Valid()
      modifies this`presentPhases, thermoMaterial
      ensures presentPhases == if roles.vapor in old(presentPhases) then old(presentPhases) else allowedPhases
      ensures r == old(WriteOutcome(thermoMaterial, SinglePhaseKey("phaseFraction", roles.vapor.value, "Mole"), [value]))
      ensures Trace() == old(Trace()) +
                Through(thermoMaterial, [Call.SetProp(SinglePhaseKey("phaseFraction", roles.vapor.value, "Mole"), [value])])
      ensures r.Pass? ==>
                thermoMaterial.store == old(thermoMaterial.store)[SinglePhaseKey("phaseFraction", roles.vapor.value, "Mole") := [value]]
      ensures r.Fail? && thermoMaterial != null ==> thermoMaterial.store == old(thermoMaterial.store)
      ensures thermoMaterial != null ==> thermoMaterial.Held() == old(thermoMaterial.Held())
    {
      if roles.vapor !in presentPhases {
        presentPhases := allowedPhases;
      }
      r := SetSinglePhasePropList("phaseFraction", roles.vapor, Mole, [value]);
    }

    // -------------------------------------------------------------------------
    // Single-phase and two-phase properties
    // -------------------------------------------------------------------------

    /** Zeros for a phase that is not present, with no provider call; otherwise
        an optional calculation whose failure is ignored, then the read. */
    method GetSinglePhasePropList(propName: string, phase: Phase, basis: Basis, calculate: bool)
      returns (r: Result<Option<seq<real>>>)
      requires Valid()
      modifies thermoMaterial
      ensures Absent(presentPhases, phase) ==> r == Ok(Some(Zeros(compoundNum))) && Trace() == old(Trace())
      ensures !Absent(presentPhases, phase) ==>
                var key := SinglePhaseKey(propName, phase.value, BasisToken(basis));
                && r == ReadOutcome(thermoMaterial, key)
                && Trace() == old(Trace())
                     + (if calculate then Through(propertyRoutine, [CalcSinglePhaseProp([propName], phase.value)]) else [])
                     + Through(thermoMaterial, [Call.GetProp(key)])
      ensures thermoMaterial != null && (Absent(presentPhases, phase) || !calculate || propertyRoutine == null) ==>
                thermoMaterial.store == old(thermoMaterial.store)
      ensures thermoMaterial != null ==> thermoMaterial.Held() == old(thermoMaterial.Held())
    {
      if Absent(presentPhases, phase) {
        return Ok(Some(Zeros(compoundNum)));
      }
      if calculate && propertyRoutine != null {
        var ignored := propertyRoutine.Calculate(CalcSinglePhaseProp([propName], phase.value));
      }
      if thermoMaterial == null {
        return Err(NullReference);
      }
      r := thermoMaterial.GetProp(SinglePhaseKey(propName, phase.value, BasisToken(basis)));
    }

    /** Widens the present phases when `phase` is not among them, then writes. */
    method SetSinglePhasePropList(propName: string, phase: Phase, basis: Basis, values: seq<real>)
      returns (r: Outcome)
      requires Valid()
      modifies this`presentPhases, thermoMaterial
      ensures presentPhases == if Absent(old(presentPhases), phase) then allowedPhases else old(presentPhases)
      ensures r == old(WriteOutcome(thermoMaterial, SinglePhaseKey(propName, phase.value, BasisToken(basis)), values))
      ensures Trace() == old(Trace()) +
                Through(thermoMaterial, [Call.SetProp(SinglePhaseKey(propName, phase.value, BasisToken(basis)), values)])
      ensures r.Pass? ==>
                thermoMaterial.store == old(thermoMaterial.store)[SinglePhaseKey(propName, phase.value, BasisToken(basis)) := values]
      ensures r.Fail? && thermoMaterial != null ==> thermoMaterial.store == old(thermoMaterial.store)
      ensures thermoMaterial != null ==> thermoMaterial.Held() == old(thermoMaterial.Held())
    {
      if Absent(presentPhases, phase) {
        presentPhases := allowedPhases;
      }
      if thermoMaterial == null {
        return Fail(NullReference);
      }
      r := thermoMaterial.SetProp(SinglePhaseKey(propName, phase.value, BasisToken(basis)), values);
    }

    /** Zeros when either phase is not present; otherwise the two-phase
        calculation, always (the `calculate` flag is ignored), then the read. */
    method GetTwoPhasePropList(propName: string, phase1: Phase, phase2: Phase, basis: Basis, calculate: bool)
      returns (r: Result<Option<seq<real>>>)
      requires Valid()
      modifies thermoMaterial
      ensures Absent(presentPhases, phase1) || Absent(presentPhases, phase2) ==>
                r == Ok(Some(Zeros(compoundNum))) && Trace() == old(Trace())
      ensures !Absent(presentPhases, phase1) && !Absent(presentPhases, phase2) ==>
                var key := TwoPhaseKey(propName, [phase1.value, phase2.value], BasisToken(basis));
                && r == ReadOutcome(thermoMaterial, key)
                && Trace() == old(Trace())
                     + Through(propertyRoutine, [CalcTwoPhaseProp([propName], [phase1.value, phase2.value])])
                     + Through(thermoMaterial, [Call.GetProp(key)])
      ensures thermoMaterial != null && (Absent(presentPhases, phase1) || Absent(presentPhases, phase2) || propertyRoutine == null) ==>
                thermoMaterial.store == old(thermoMaterial.store)
      ensures thermoMaterial != null ==> thermoMaterial.Held() == old(thermoMaterial.Held())
    {
      if Absent(presentPhases, phase1) || Absent(presentPhases, phase2) {
        return Ok(Some(Zeros(compoundNum)));
      }
      var phaseList := [phase1.value, phase2.value];
      if propertyRoutine != null {
        var ignored := propertyRoutine.Calculate(CalcTwoPhaseProp([propName], phaseList));
      }
      if thermoMaterial == null {
        return Err(NullReference);
      }
      r := thermoMaterial.GetProp(TwoPhaseKey(propName, phaseList, BasisToken(basis)));
    }

    /** Widens the present phases when either phase is not among them, then writes. */
    method SetTwoPhasePropList(propName: string, phase1: Phase, phase2: Phase, basis: Basis, values: seq<real>)
      returns (r: Outcome)
      requires Valid()
      modifies this`presentPhases, thermoMaterial
      ensures presentPhases ==
                if Absent(old(presentPhases), phase1) || Absent(old(presentPhases), phase2)
                then allowedPhases else old(presentPhases)
      ensures r == old(WriteOutcome(thermoMaterial, TwoPhaseKey(propName, [phase1.value, phase2.value], BasisToken(basis)), values))
      ensures Trace() == old(Trace()) +
                Through(thermoMaterial, [Call.SetProp(TwoPhaseKey(propName, [phase1.value, phase2.value], BasisToken(basis)), values)])
      ensures r.Pass? ==>
                thermoMaterial.store == old(thermoMaterial.store)[TwoPhaseKey(propName, [phase1.value, phase2.value], BasisToken(basis)) := values]
      ensures r.Fail? && thermoMaterial != null ==> thermoMaterial.store == old(thermoMaterial.store)
      ensures thermoMaterial != null ==> thermoMaterial.Held() == old(thermoMaterial.Held())
    {
      if Absent(presentPhases, phase1) || Absent(presentPhases, phase2) {
        presentPhases := allowedPhases;
      }
      if thermoMaterial == null {
        return Fail(NullReference);
      }
      r := thermoMaterial.SetProp(TwoPhaseKey(propName, [phase1.value, phase2.value], BasisToken(basis)), values);
    }

    // -------------------------------------------------------------------------
    // Compound constants
    // -------------------------------------------------------------------------

    /** A compound constant as a number: the provider call itself may throw
        (a missing compound interface included); its reply never does. */
    method GetCompoundConstPropDouble(propName: string, compoundId: string) returns (r: Result<real>)
      requires Valid()
      modifies thermoMaterial
      ensures thermoCompounds == null ==> r == Err(NullReference)
      ensures thermoCompounds != null ==>
                && (r.Err? <==> Call.GetCompoundConstant([propName], [compoundId]) in thermoCompounds.failing)
                && (r.Ok? ==> r.value == CoerceConstant(
                      if (propName, compoundId) in old(thermoCompounds.constants)
                      then Some(old(thermoCompounds.constants)[(propName, compoundId)]) else None))
      ensures Trace() == old(Trace()) + Through(thermoCompounds, [Call.GetCompoundConstant([propName], [compoundId])])
      ensures thermoMaterial != null ==> thermoMaterial.Held() == old(thermoMaterial.Held())
      ensures thermoMaterial != null ==> thermoMaterial.store == old(thermoMaterial.store)
    {
      if thermoCompounds == null {
        return Err(NullReference);
      }
      var reply := thermoCompounds.GetCompoundConstant(propName, compoundId);
      match reply {
        case Err(e) => r := Err(e);
        case Ok(value) => r := Ok(CoerceConstant(value));
      }
    }
  }
}
