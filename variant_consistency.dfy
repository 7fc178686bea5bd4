/** DefaultProductVariantConsistencyValidator: whether the variant ids of a registration are
    exactly the variants the product service lists for the product. */
module VariantConsistency {
  import opened Common

  /** ProductVariantMatchCommand: the product and the requested variant ids, in request order. */
  datatype MatchCommand = MatchCommand(productId: Uuid, variantIds: seq<Uuid>)

  /** The distinct elements of a list (`Collectors.toSet()`, `Set.copyOf`). */
  function ElementSet(ids: seq<Uuid>): (s: set<Uuid>)
    ensures forall x :: x in s <==> x in ids
  {
    set i | 0 <= i < |ids| :: ids[i]
  }

  /** `matches(command)` given the product's listed variant ids: equality of the two sets. */
  function Matches(existing: seq<Uuid>, command: MatchCommand): (r: bool)
    ensures r <==> forall x :: x in existing <==> x in command.variantIds
  {
    ElementSet(existing) == ElementSet(command.variantIds)
  }

  /** Order and repetition do not matter: the requested list may be reordered or repeat ids and
      still match, and a list with any id the product lacks, or missing any id it has, does not. */
  lemma MatchIgnoresOrderAndRepetition(existing: seq<Uuid>, productId: Uuid, requested: seq<Uuid>)
    requires existing != []
    ensures Matches(existing, MatchCommand(productId, existing + existing))
    ensures Matches(existing, MatchCommand(productId, [existing[|existing| - 1]] + existing[..|existing| - 1]))
    ensures (exists x :: x in requested && x !in existing) ==> !Matches(existing, MatchCommand(productId, requested))
    ensures (exists x :: x in existing && x !in requested) ==> !Matches(existing, MatchCommand(productId, requested))
  {
    var rotated := [existing[|existing| - 1]] + existing[..|existing| - 1];
    forall x | x in existing
      ensures x in rotated
    {
      var i :| 0 <= i < |existing| && existing[i] == x;
      if i < |existing| - 1 {
        assert existing[..|existing| - 1][i] == x;
      }
    }
  }
}
