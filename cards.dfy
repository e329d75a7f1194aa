/** The build cards the renderer returns for an account, and the search in
    `character_callback` for the one a pressed button asks for. */
module Cards {
  import opened Wrappers

  /** One rendered build card: the character's id and name, and whether an
      image came back (`card_obj.card` is not None). */
  datatype Card = Card(id: int, name: string, hasImage: bool)

  /** `k` is the position of the first card with id `id`. */
  ghost predicate IsFirstMatch(cards: seq<Card>, id: int, k: nat)
  {
    k < |cards| && cards[k].id == id && forall j :: 0 <= j < k ==> cards[j].id != id
  }

  /** There is at most one first match. */
  lemma FirstMatchUnique(cards: seq<Card>, id: int, k1: nat, k2: nat)
    requires IsFirstMatch(cards, id, k1) && IsFirstMatch(cards, id, k2)
    ensures k1 == k2
  {
  }

  /** The `for card_obj in result.card` loop with its `found` flag and
      `break`: the position of the first card whose id matches, or None
      when no card does. */
  method FindCard(cards: seq<Card>, id: int) returns (found: Option<nat>)
    ensures found.Some? ==> IsFirstMatch(cards, id, found.value)
    ensures found.None? <==> forall j :: 0 <= j < |cards| ==> cards[j].id != id
  {
    found := None;
    var i := 0;
    while i < |cards|
      invariant 0 <= i <= |cards|
      invariant forall j :: 0 <= j < i ==> cards[j].id != id
    {
      if cards[i].id == id {
        found := Some(i);
        break;
      }
      i := i + 1;
    }
  }
}
