/**
 * The material registry both programs consult, and how a program run ends.
 *
 * The registry's physical content (form factors, spin-orbit parameters) is
 * not part of this model: a material is its symbol and its lattice constant,
 * the one field the programs shown read (`m_a`). The registry is given in its
 * own iteration order; looking a symbol up with `.at` throws
 * `std::out_of_range` when it is absent, and neither program catches it.
 */
module Materials {
  import opened Optional

  datatype Material = Material(symbol: string, latticeConstant: real)

  /** How a process ends: `main` returns a status, or an uncaught `.at` failure terminates it. */
  datatype Outcome = Exit(code: int) | UncaughtOutOfRange(key: string)

  /** The keyed lookup `materials.at(symbol)`, with the throw as `None`. */
  function Find(registry: seq<Material>, symbol: string): (r: Option<Material>)
    ensures r.Some? <==> exists i :: 0 <= i < |registry| && registry[i].symbol == symbol
    ensures r.Some? ==> r.value.symbol == symbol && r.value in registry
  {
    if registry == [] then None
    else if registry[0].symbol == symbol then Some(registry[0])
    else Find(registry[1..], symbol)
  }
}
