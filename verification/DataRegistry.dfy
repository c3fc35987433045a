// Definitions a simulation is built from.  A run never changes them.
module DataRegistry {
  import opened U64

  datatype ResourceDefinition = ResourceDefinition(displayName: string, baseValue: u64)

  datatype BuildingDefinition = BuildingDefinition(
    displayName: string, workerSlots: u32, profession: string, inputs: seq<string>, outputs: seq<string>)

  datatype SettlementDefinition = SettlementDefinition(displayName: string, population: u64)

  datatype Registry = Registry(
    resources: map<string, ResourceDefinition>,
    professions: set<string>,
    buildings: map<string, BuildingDefinition>,
    settlements: map<string, SettlementDefinition>)

  // What `validate_references` checks.
  predicate ReferencesValid(r: Registry) {
    forall id <- r.buildings ::
      var d := r.buildings[id];
      && (d.profession == [] || d.profession in r.professions)
      && (forall i :: 0 <= i < |d.inputs| ==> d.inputs[i] in r.resources)
      && (forall i :: 0 <= i < |d.outputs| ==> d.outputs[i] in r.resources)
  }
}
