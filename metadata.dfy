/** The shape of the JSON metadata documents uploaded before a token is minted:
    name, description, image locator, a list of attributes, and an optional
    `properties` block. */
module NftMetadata {
  import opened Wrappers

  /** A damage-carrying move, as the cards list them. */
  datatype Move = Move(name: string, damage: int)

  /** The value of one attribute: a string, an integer or a score. */
  datatype AttrValue = StrValue(s: string) | IntValue(i: int) | RealValue(x: real)

  /** One `{ trait_type, value }` entry. */
  datatype Attribute = Attribute(traitType: string, value: AttrValue)

  /** The `properties` block of a card document. */
  datatype Properties = Properties(cardType: string, hp: int, moves: seq<Move>)

  datatype Document = Document(
    name: string,
    description: string,
    image: string,
    attributes: seq<Attribute>,
    properties: Option<Properties>)

  /** The trait names of a list of attributes, in order. */
  function TraitTypes(attrs: seq<Attribute>): (r: seq<string>)
    ensures |r| == |attrs|
    ensures forall i :: 0 <= i < |attrs| ==> r[i] == attrs[i].traitType
  {
    if attrs == [] then [] else [attrs[0].traitType] + TraitTypes(attrs[1..])
  }
}
