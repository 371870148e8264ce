/** Phases and the role table (`Phases.Vapor`, `Phases.Liquid`), and the
    substring rules that give each role a provider label after binding. */
module PhaseRoles {
  import opened Common

  /** A phase as the wrappers see it: the provider's label (`Phases.Value`).
      Phases are compared by label. */
  datatype Phase = Phase(value: string)

  /** The two roles the wrappers fill: which label stands for vapor and which for liquid. */
  datatype Roles = Roles(vapor: Phase, liquid: Phase)

  /** The role table. In the source `Phases.Vapor` and `Phases.Liquid` are static,
      so one table is shared by every material object that refers to it. */
  class RoleTable {
    var vapor: Phase
    var liquid: Phase

    constructor (vapor: Phase, liquid: Phase)
      ensures this.vapor == vapor && this.liquid == liquid
    {
      this.vapor := vapor;
      this.liquid := liquid;
    }

    function Current(): Roles
      reads this
    {
      Roles(vapor, liquid)
    }
  }

  /** One `Phases` per label, in label order (`select new Phases(phaseString)`). */
  function PhasesOfLabels(labels: seq<string>): (phases: seq<Phase>)
    ensures |phases| == |labels|
    ensures forall i :: 0 <= i < |labels| ==> phases[i].value == labels[i]
  {
    seq(|labels|, i requires 0 <= i < |labels| => Phase(labels[i]))
  }

  /** Position of the first phase whose label contains `pattern`
      (`FirstOrDefault(phase => phase.Value.Contains(pattern))`). */
  function FirstContaining(phases: seq<Phase>, pattern: string): (r: Option<nat>)
    ensures r.Some? ==> r.value < |phases| && Contains(phases[r.value].value, pattern)
    ensures r.Some? ==> forall j :: 0 <= j < r.value ==> !Contains(phases[j].value, pattern)
    ensures r.None? ==> forall j :: 0 <= j < |phases| ==> !Contains(phases[j].value, pattern)
  {
    if |phases| == 0 then None
    else if Contains(phases[0].value, pattern) then Some(0)
    else match FirstContaining(phases[1..], pattern)
      case None => None
      case Some(k) => Some(k + 1)
  }

  /** Some label of `phases` contains `pattern`. */
  predicate AnyContaining(phases: seq<Phase>, pattern: string) {
    exists i :: 0 <= i < |phases| && Contains(phases[i].value, pattern)
  }

  /** `p` is the first of `phases` whose label contains `pattern`. */
  predicate IsFirstContaining(phases: seq<Phase>, pattern: string, p: Phase) {
    exists i :: 0 <= i < |phases| && phases[i] == p && Contains(p.value, pattern) &&
      forall j :: 0 <= j < i ==> !Contains(phases[j].value, pattern)
  }

  /** The role a pattern selects: the first matching phase, or the current one. */
  function Select(phases: seq<Phase>, pattern: string, current: Phase): Phase {
    match FirstContaining(phases, pattern)
    case Some(i) => phases[i]
    case None => current
  }

  /** Role assignment after a bind: "vap" picks the vapor role; "liq" picks the
      liquid role and a later "solid" match overwrites it; a role without a
      match keeps its value. Matching is case-sensitive. */
  function AssignRoles(allowed: seq<Phase>, roles: Roles): (r: Roles)
    ensures AnyContaining(allowed, "vap") ==> IsFirstContaining(allowed, "vap", r.vapor)
    ensures !AnyContaining(allowed, "vap") ==> r.vapor == roles.vapor
    ensures AnyContaining(allowed, "solid") ==> IsFirstContaining(allowed, "solid", r.liquid)
    ensures !AnyContaining(allowed, "solid") && AnyContaining(allowed, "liq") ==>
              IsFirstContaining(allowed, "liq", r.liquid)
    ensures !AnyContaining(allowed, "solid") && !AnyContaining(allowed, "liq") ==> r.liquid == roles.liquid
  {
    var vapor := Select(allowed, "vap", roles.vapor);
    var liquid := Select(allowed, "liq", roles.liquid);
    Roles(vapor, Select(allowed, "solid", liquid))
  }

  /** Assigning roles twice from the same allowed phases changes nothing more
      (a rebind through another wrapper runs the assignment twice). */
  lemma AssignRolesIdempotent(allowed: seq<Phase>, roles: Roles)
    ensures AssignRoles(allowed, AssignRoles(allowed, roles)) == AssignRoles(allowed, roles)
  {
  }

  /** A "solid" label takes the liquid role even when a "liq" label comes first. */
  lemma SolidTakesLiquidRole(roles: Roles)
    ensures AssignRoles([Phase("liquid"), Phase("solid")], roles).liquid == Phase("solid")
  {
    FirstCharAbsent("liquid", "solid");
    assert StartsWith("solid", "solid");
  }

  /** A label holding none of the patterns' first letters matches no pattern. */
  lemma NoRolePattern(name: string)
    requires 'v' !in name && 'l' !in name && 's' !in name
    ensures !Contains(name, "vap") && !Contains(name, "liq") && !Contains(name, "solid")
  {
    FirstCharAbsent(name, "vap");
    FirstCharAbsent(name, "liq");
    FirstCharAbsent(name, "solid");
  }

  /** Labels that differ from the patterns only in case select nothing:
      "Vapor" does not contain "vap" and "Liquid1" does not contain "liq". */
  lemma CaseSensitiveRoles(roles: Roles)
    ensures AssignRoles([Phase("Vapor"), Phase("Liquid1"), Phase("Liquid2")], roles) == roles
  {
    NoRolePattern("Vapor");
    NoRolePattern("Liquid1");
    NoRolePattern("Liquid2");
    assert FirstContaining([Phase("Vapor"), Phase("Liquid1"), Phase("Liquid2")], "vap") == None;
  }

  /** Lower-case labels select their roles in order. */
  lemma LowerCaseRoles(roles: Roles)
    ensures AssignRoles([Phase("vapor"), Phase("liquid1"), Phase("liquid2")], roles)
            == Roles(Phase("vapor"), Phase("liquid1"))
  {
    var allowed := [Phase("vapor"), Phase("liquid1"), Phase("liquid2")];
    assert StartsWith("vapor", "vap");
    assert StartsWith("liquid1", "liq");
    FirstCharAbsent("vapor", "liq");
    forall i | 0 <= i < |allowed| ensures !Contains(allowed[i].value, "solid") {
      FirstCharAbsent(allowed[i].value, "solid");
    }
  }
}
