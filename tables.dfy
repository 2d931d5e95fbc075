/**
 * The material and fluid tables of the backend (app.py, MATERIALS and FLUIDS).
 * A key outside a table makes the lookup raise KeyError; the solver turns that
 * into an error result. The fluid property correlations are not part of this
 * model: only the fluid keys and display names are.
 */
module Tables {
  import opened Wrappers

  /** One row of the material table. */
  datatype Material = Material(name: string, densityLbft3: real, roughnessFt: real, color: string)

  const Materials: map<string, Material> := map[
    "stainless_304" := Material("Stainless 304", 499.0, 5e-6, "#C0C0C0"),
    "aluminum_6061" := Material("Aluminum 6061-T6", 169.0, 1.5e-6, "#A9C0DE"),
    "copper_c110" := Material("Copper C110", 559.0, 1.2e-6, "#B87333"),
    "brass_c360" := Material("Brass C360", 532.0, 1.8e-6, "#D4AF37"),
    "carbon_steel" := Material("Carbon Steel", 490.0, 7e-6, "#6E7074")
  ]

  /** The fluid table: key to display name. */
  const Fluids: map<string, string> := map[
    "air" := "Air",
    "water" := "Water",
    "diesel" := "Diesel",
    "oil_iso46" := "Hydraulic Oil (ISO VG 46)",
    "hydrogen" := "Hydrogen",
    "nitrogen" := "Nitrogen",
    "glycol" := "Ethylene Glycol"
  ]

  /** `MATERIALS[key]`: None where Python raises KeyError. */
  function LookupMaterial(key: string): (r: Option<Material>)
    ensures r.Some? <==> key in MaterialKeys()
    ensures r.Some? ==> key in Materials && r.value == Materials[key]
    ensures r.Some? ==> r.value.densityLbft3 > 0.0 && r.value.roughnessFt > 0.0
  {
    if key in Materials then Some(Materials[key]) else None
  }

  /** The five material keys, written out. */
  function MaterialKeys(): set<string>
  {
    {"stainless_304", "aluminum_6061", "copper_c110", "brass_c360", "carbon_steel"}
  }

  /** The seven fluid keys, written out. */
  function FluidKeys(): set<string>
  {
    {"air", "water", "diesel", "oil_iso46", "hydrogen", "nitrogen", "glycol"}
  }

  /** Every table density and roughness is positive, and the tables hold exactly the listed keys. */
  lemma TablesWellFormed()
    ensures Materials.Keys == MaterialKeys()
    ensures Fluids.Keys == FluidKeys()
    ensures forall k :: k in Materials ==> Materials[k].densityLbft3 > 0.0 && Materials[k].roughnessFt > 0.0
  {
  }

  /** The solver's default keys, "air" and "stainless_304", are table keys. */
  lemma DefaultKeysKnown()
    ensures "air" in Fluids && "stainless_304" in Materials
  {
  }
}
