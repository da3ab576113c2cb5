/** The expand/collapse sets of the FAQ and document advisor screens. */
module Expansion {

  /** Adds `id` when it is absent and removes it when it is present. */
  function Toggled(expanded: set<string>, id: string): (r: set<string>)
    ensures id in r <==> id !in expanded
    ensures forall other | other != id :: other in r <==> other in expanded
  {
    if id in expanded then expanded - {id} else expanded + {id}
  }

  /** Toggling the same id twice restores the set. */
  lemma ToggledTwice(expanded: set<string>, id: string)
    ensures Toggled(Toggled(expanded, id), id) == expanded
  {
  }
}
