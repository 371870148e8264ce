/** Whole-object scenarios: a MaterialObject11 bound to a new provider, or an
    energy port connected to a new collection, driven through the wrapper's
    own methods. Each states what a caller of the source observes when it
    writes through one method and reads through another. */
module Scenarios {
  import opened Common
  import opened ThermoProvider
  import opened PhaseRoles
  import opened Material11
  import opened EnergyPort

  /** A wrapper bound to a new provider that implements `capabilities`, fails
      the calls in `failing` and holds `held` and no stored property. */
  method NewMaterial(capabilities: set<Capability>, failing: set<Call>, held: Holdings)
    returns (m: MaterialObject11)
    ensures fresh(m) && fresh(m.roles) && m.Valid() && m.thermoMaterial != null && fresh(m.thermoMaterial)
    ensures m.thermoMaterial.capabilities == capabilities && m.thermoMaterial.failing == failing
    ensures m.thermoMaterial.Held() == held && m.thermoMaterial.store == map[]
    ensures m.roles.Current() == Roles(Phase("Vapor"), Phase("Liquid"))
    ensures m.presentPhases == [] && m.allowedPhases == [] && m.compounds == [] && m.compoundNum == 0
    ensures m.aliasName == (if CompoundEnumeration in capabilities && GetCompoundList !in failing
                            then held.compoundIds else None)
  {
    var p := new Provider(capabilities, failing);
    p.phaseList, p.compoundIds, p.constants := held.phaseList, held.compoundIds, held.constants;
    var roles := new RoleTable(Phase("Vapor"), Phase("Liquid"));
    m := new MaterialObject11(roles);
    var bound := m.SetMaterial(ThermoMaterial(p));
    assert AssignRoles([], Roles(Phase("Vapor"), Phase("Liquid"))) == Roles(Phase("Vapor"), Phase("Liquid"));
  }

  /** Holdings with nothing in them. */
  function NoHoldings(): Holdings {
    Holdings(PhaseListReply(None, None, None), None, map[])
  }

  // ---------------------------------------------------------------------------
  // Binding
  // ---------------------------------------------------------------------------

  /** Binding reads the compound ids into `aliasName`; without the compound
      interface, or when the list call fails, they are null. */
  method BindThenCompounds(ids: seq<string>, compoundInterface: bool, listFails: bool)
    returns (alias: Option<seq<string>>)
    ensures alias == if compoundInterface && !listFails then Some(ids) else None
  {
    var caps := if compoundInterface then {CompoundEnumeration} else {};
    var failing := if listFails then {GetCompoundList} else {};
    var m := NewMaterial(caps, failing, NoHoldings().(compoundIds := Some(ids)));
    alias := m.aliasName;
  }

  // ---------------------------------------------------------------------------
  // Allowed phases
  // ---------------------------------------------------------------------------

  /** The allowed phases are the provider's labels, one phase each and in
      order; null labels give the vapor and liquid roles instead. */
  method AllowedPhasesFromLabels(labels: Option<seq<string>>) returns (phases: seq<Phase>)
    ensures labels.None? ==> phases == [Phase("Vapor"), Phase("Liquid")]
    ensures labels.Some? ==> |phases| == |labels.value| &&
                             forall i :: 0 <= i < |phases| ==> phases[i] == Phase(labels.value[i])
  {
    var m := NewMaterial({PhaseEnumeration}, {}, NoHoldings().(phaseList := PhaseListReply(labels, None, None)));
    var allowed := m.GetListOfAllowedPhase();
    phases := allowed.phases;
  }

  /** One "vapor" label gives the single phase "vapor". */
  method OneVaporLabel() returns (phases: seq<Phase>)
    ensures phases == [Phase("vapor")]
  {
    phases := AllowedPhasesFromLabels(Some(["vapor"]));
  }

  // ---------------------------------------------------------------------------
  // Flashes
  // ---------------------------------------------------------------------------

  /** A TP flash succeeds exactly when the provider has an equilibrium routine
      that does not fail the TP request; a success leaves the allowed phases present. */
  method TPFlash(equilibriumInterface: bool, requestFails: bool, allowed: seq<Phase>)
    returns (ok: bool, present: seq<Phase>)
    ensures ok <==> equilibriumInterface && !requestFails
    ensures present == if equilibriumInterface then allowed else []
  {
    var caps := if equilibriumInterface then {EquilibriumRoutine} else {};
    var failing := if requestFails then {FlashCall(TP)} else {};
    var m := NewMaterial(caps, failing, NoHoldings());
    m.allowedPhases := allowed;
    ok := m.DoTPFlash(false);
    present := m.presentPhases;
  }

  // ---------------------------------------------------------------------------
  // Property round trips
  // ---------------------------------------------------------------------------

  /** An overall property written is the one read back. */
  method OverallSetThenGet(propName: string, basis: Basis, values: seq<real>)
    returns (w: Outcome, r: Result<Option<seq<real>>>)
    ensures w == Pass && r == Ok(Some(values))
  {
    var m := NewMaterial({}, {}, NoHoldings());
    w := m.SetOverallPropList(propName, basis, values);
    r := m.GetOverallPropList(propName, basis);
  }

  /** Writing a composition and reading it back gives each compound its
      supplied fraction and 0 to the compounds the supplied map lacks. */
  method CompositionSetThenGet(ids: seq<string>, composition: map<string, real>)
    returns (w: Outcome, r: Result<map<string, real>>)
    requires Distinct(ids)
    ensures w == Pass && r == Ok(map id | id in ids :: FractionOf(composition, id))
  {
    var m := NewMaterial({}, {}, NoHoldings());
    m.compounds, m.compoundNum := ids, |ids|;
    assert ids[..|ids|] == ids;
    w := m.SetComposition(Some(composition));
    r := m.GetComposition();
    CompositionRoundTrip(ids, composition);
  }

  /** A single-phase property written for an allowed phase is read back; with
      no property routine the `calculate` flag changes nothing. */
  method SinglePhaseSetThenGet(propName: string, phase: Phase, basis: Basis, values: seq<real>, calculate: bool)
    returns (w: Outcome, r: Result<Option<seq<real>>>)
    ensures w == Pass && r == Ok(Some(values))
  {
    var m := NewMaterial({}, {}, NoHoldings());
    m.allowedPhases := [phase];
    w := m.SetSinglePhasePropList(propName, phase, basis, values);
    r := m.GetSinglePhasePropList(propName, phase, basis, calculate);
  }

  /** A write for a phase that is not allowed is stored, but the read answers
      zeros: the widened present phases still do not hold it. */
  method SinglePhaseOutsideAllowed(propName: string, phase: Phase, basis: Basis, values: seq<real>, n: nat)
    returns (w: Outcome, r: Result<Option<seq<real>>>)
    ensures w == Pass && r == Ok(Some(Zeros(n)))
  {
    var m := NewMaterial({}, {}, NoHoldings());
    m.compoundNum := n;
    w := m.SetSinglePhasePropList(propName, phase, basis, values);
    r := m.GetSinglePhasePropList(propName, phase, basis, false);
  }

  /** A two-phase property written for two allowed phases is read back. */
  method TwoPhaseSetThenGet(propName: string, phase1: Phase, phase2: Phase, basis: Basis, values: seq<real>)
    returns (w: Outcome, r: Result<Option<seq<real>>>)
    ensures w == Pass && r == Ok(Some(values))
  {
    var m := NewMaterial({}, {}, NoHoldings());
    m.allowedPhases := [phase1, phase2];
    w := m.SetTwoPhasePropList(propName, phase1, phase2, basis, values);
    r := m.GetTwoPhasePropList(propName, phase1, phase2, basis, true);
  }

  /** The vapor fraction written is the one read back. */
  method VaporFractionSetThenGet(x: real) returns (w: Outcome, r: Result<real>)
    ensures w == Pass && r == Ok(x)
  {
    var m := NewMaterial({}, {}, NoHoldings());
    w := m.SetVaporFraction(x);
    r := m.GetVaporFraction();
  }

  /** With nothing stored the vapor fraction reads 0. */
  method VaporFractionUnset() returns (r: Result<real>)
    ensures r == Ok(0.0)
  {
    var m := NewMaterial({}, {}, NoHoldings());
    r := m.GetVaporFraction();
  }

  // ---------------------------------------------------------------------------
  // Compound constants
  // ---------------------------------------------------------------------------

  /** A constant stored as a boxed number, or as a one-element double[], reads
      as that number; without the compound interface the read throws. */
  method ConstantRead(propName: string, compoundId: string, d: real, asArray: bool, compoundInterface: bool)
    returns (r: Result<real>)
    ensures compoundInterface ==> r == Ok(d)
    ensures !compoundInterface ==> r == Err(NullReference)
  {
    var boxed := if asArray then DoubleArray([d]) else Convertible(d);
    var caps := if compoundInterface then {CompoundEnumeration} else {};
    var m := NewMaterial(caps, {}, NoHoldings().(constants := map[(propName, compoundId) := [boxed]]));
    r := m.GetCompoundConstPropDouble(propName, compoundId);
  }

  /** The molecular weight of water, stored as 18.02. */
  method WaterMolecularWeight() returns (r: Result<real>)
    ensures r == Ok(18.02)
  {
    r := ConstantRead("MolecularWeight", "Water", 18.02, false, true);
  }

  // ---------------------------------------------------------------------------
  // Duplicate
  // ---------------------------------------------------------------------------

  /** A duplicate reads the property its original held; the original keeps it. */
  method DuplicateKeepsProperty(propName: string, basis: Basis, values: seq<real>)
    returns (fromCopy: Result<Option<seq<real>>>, fromOriginal: Result<Option<seq<real>>>)
    ensures fromCopy == Ok(Some(values)) && fromOriginal == Ok(Some(values))
  {
    var m := NewMaterial({}, {}, NoHoldings());
    var w := m.SetOverallPropList(propName, basis, values);
    var copy := m.Duplicate();
    assert copy.Ok?;
    fromCopy := copy.value.GetOverallPropList(propName, basis);
    fromOriginal := m.GetOverallPropList(propName, basis);
  }

  // ---------------------------------------------------------------------------
  // Energy port
  // ---------------------------------------------------------------------------

  /** A port connected to a new collection holding `items`. */
  method Connected(items: seq<Param>) returns (port: CapeEnergyPort)
    ensures fresh(port) && port.paramCollection != null && fresh(port.paramCollection)
    ensures port.paramCollection.items == items
  {
    port := new CapeEnergyPort("Energy", Inlet, None, true);
    var collection := new ParamCollection(items);
    var connected := port.Connect(Collection(collection));
  }

  /** The Work setter as written changes the parameter before "Work": with a
      temperature first, the temperature gets the new value and Work reads as before. */
  method SetWorkAfterTemperature() returns (w: Outcome, items: seq<Param>, work: Result<real>)
    ensures w == Pass
    ensures items == [Param("T", 5.0), Param("Work", 2.0)]
    ensures work == Ok(2.0)
  {
    var port := Connected([Param("T", 1.0), Param("Work", 2.0)]);
    SetAsWrittenMissesTarget();
    w := port.SetWork(5.0);
    items := port.paramCollection.items;
    assert SoleMatch(items, WorkKey, 1) by {
      assert Lower("Work") == WorkKey && Lower("T") != WorkKey;
    }
    work := port.Work();
  }

  /** The Work setter as written throws when "Work" is the first parameter,
      and the collection is left as it was. */
  method SetWorkFirst() returns (w: Outcome, items: seq<Param>)
    ensures w == Fail(ProviderFailure)
    ensures items == [Param("Work", 2.0)]
  {
    var port := Connected([Param("Work", 2.0)]);
    SetAsWrittenMissesTarget();
    w := port.SetWork(5.0);
    items := port.paramCollection.items;
  }

  /** The intended setter writes "Work" itself. */
  method SetNamedWork() returns (w: Outcome, items: seq<Param>)
    ensures w == Pass
    ensures items == [Param("T", 1.0), Param("Work", 5.0)]
  {
    var port := Connected([Param("T", 1.0), Param("Work", 2.0)]);
    SetAsWrittenMissesTarget();
    w := port.SetNamed(WorkKey, 5.0);
    items := port.paramCollection.items;
  }
}
