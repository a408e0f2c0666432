/**
 * The editable product and FAQ lists of the profile form. Each card carries
 * its position as an attribute, input names of the form
 * `collection[k].field` (which the payload builder reads back by position)
 * and a visible label `Prefix k+1`. Adding or removing a card re-numbers
 * every card so that all three stay aligned with the card's position.
 */
module Cards {

  import opened Wrappers
  import opened Js
  import opened UiHelpers

  /**
   * One card: the element itself (`node`, an identity the page gives it when
   * it is inserted), its index attribute, the `data-field` attribute of each
   * input (empty when it has none), the `name` of each input, and the label
   * text when the card has a label element.
   */
  datatype Card = Card(node: nat, index: int, fields: seq<string>, names: seq<string>, caption: Option<string>)

  const ProdutoFields: seq<string> := ["nome", "descricao", "preco"]
  const FaqFields: seq<string> := ["pergunta", "resposta"]

  function CardLabel(prefix: string, k: nat): string {
    prefix + " " + NatToString(k + 1)
  }

  /** Card `k` of a collection is numbered `k` in its attribute, its input names and its label. */
  ghost predicate NumberedAt(c: Card, k: nat, collection: string, prefix: string) {
    && c.index == k
    && |c.names| == |c.fields|
    && (forall j :: 0 <= j < |c.fields| && c.fields[j] != "" ==> c.names[j] == FieldName(collection, k, c.fields[j]))
    && (c.caption.Some? ==> c.caption.value == CardLabel(prefix, k))
  }

  ghost predicate Aligned(cards: seq<Card>, collection: string, prefix: string) {
    forall k :: 0 <= k < |cards| ==> NumberedAt(cards[k], k, collection, prefix)
  }

  /** The card `renderProdutoCard`/`renderFaqCard` produce for position `index`. */
  function RenderCard(node: nat, index: nat, collection: string, prefix: string, fields: seq<string>): (c: Card)
    ensures NumberedAt(c, index, collection, prefix) && c.fields == fields && c.caption.Some? && c.node == node
  {
    Card(node, index, fields,
         seq(|fields|, j requires 0 <= j < |fields| => FieldName(collection, index, fields[j])),
         Some(CardLabel(prefix, index)))
  }

  /** What re-numbering does not touch: the element, its inputs' fields, which inputs have a name, and whether there is a label. */
  predicate SameShape(a: Card, b: Card) {
    a.node == b.node && a.fields == b.fields && |a.names| == |b.names| && a.caption.Some? == b.caption.Some?
    && forall j :: 0 <= j < |a.fields| && j < |a.names| && a.fields[j] == "" ==> b.names[j] == a.names[j]
  }

  /** The elements of a list of cards, in page order. */
  function Nodes(cards: seq<Card>): (r: seq<nat>)
    ensures |r| == |cards| && forall k :: 0 <= k < |cards| ==> r[k] == cards[k].node
  {
    seq(|cards|, k requires 0 <= k < |cards| => cards[k].node)
  }

  class CardList {
    var cards: seq<Card>

    /** Every card has one name per input. */
    ghost predicate Valid()
      reads this
    {
      forall k :: 0 <= k < |cards| ==> |cards[k].names| == |cards[k].fields|
    }

    constructor (initial: seq<Card>)
      requires forall k :: 0 <= k < |initial| ==> |initial[k].names| == |initial[k].fields|
      ensures Valid() && cards == initial
    {
      cards := initial;
    }

    /** `reindexCollection`: every card gets its position as index, input-name index and label number. */
    method Reindex(collection: string, prefix: string)
      requires Valid()
      modifies this
      ensures Valid() && Aligned(cards, collection, prefix)
      ensures |cards| == |old(cards)|
      ensures forall k :: 0 <= k < |cards| ==> SameShape(old(cards)[k], cards[k])
    {
      var k := 0;
      while k < |cards|
        invariant 0 <= k <= |cards| == |old(cards)|
        invariant Valid()
        invariant forall i :: 0 <= i < k ==> NumberedAt(cards[i], i, collection, prefix)
        invariant forall i :: 0 <= i < |cards| ==> SameShape(old(cards)[i], cards[i])
        invariant forall i :: k <= i < |cards| ==> cards[i] == old(cards)[i]
      {
        var c := cards[k];
        var names := c.names;
        var j := 0;
        while j < |c.fields|
          invariant 0 <= j <= |c.fields| == |names|
          invariant forall i :: 0 <= i < j && c.fields[i] != "" ==> names[i] == FieldName(collection, k, c.fields[i])
          invariant forall i :: 0 <= i < |names| && (j <= i || c.fields[i] == "") ==> names[i] == c.names[i]
        {
          if c.fields[j] != "" {
            names := names[j := FieldName(collection, k, c.fields[j])];
          }
          j := j + 1;
        }
        var caption := if c.caption.Some? then Some(CardLabel(prefix, k)) else None;
        cards := cards[k := Card(c.node, k, c.fields, names, caption)];
        k := k + 1;
      }
    }

    /** `appendProdutoCard`/`appendFaqCard`: render a card (the new element `node`) at the end, then re-number. */
    method Append(node: nat, collection: string, prefix: string, fields: seq<string>)
      requires Valid()
      modifies this
      ensures Valid() && Aligned(cards, collection, prefix)
      ensures |cards| == |old(cards)| + 1
      ensures forall k :: 0 <= k < |old(cards)| ==> SameShape(old(cards)[k], cards[k])
      ensures cards[|cards| - 1].fields == fields
      ensures Nodes(cards) == Nodes(old(cards)) + [node]
    {
      cards := cards + [RenderCard(node, |cards|, collection, prefix, fields)];
      Reindex(collection, prefix);
    }

    /** The remove button of card `k`: drop it, then re-number the rest. */
    method Remove(k: nat, collection: string, prefix: string)
      requires Valid() && k < |cards|
      modifies this
      ensures Valid() && Aligned(cards, collection, prefix)
      ensures |cards| == |old(cards)| - 1
      ensures forall i :: 0 <= i < k ==> SameShape(old(cards)[i], cards[i])
      ensures forall i :: k <= i < |cards| ==> SameShape(old(cards)[i + 1], cards[i])
      ensures Nodes(cards) == Nodes(old(cards)[..k] + old(cards)[k + 1..])
    {
      cards := cards[..k] + cards[k + 1..];
      Reindex(collection, prefix);
    }
  }
}
