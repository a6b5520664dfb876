/**
 * The vocabulary both translators share: the engine's node and scalar
 * styles, their names in event tables, and the directive records.
 */
module Vocabulary {
  import opened Lua

  /** `enum fy_node_style` restricted to the collection styles: FYNS_ANY, FYNS_BLOCK, FYNS_FLOW. */
  datatype NodeStyle = AnyNode | BlockNode | FlowNode

  /** `enum fy_scalar_style`: FYSS_ANY, FYSS_PLAIN, ..., FYSS_FOLDED. */
  datatype ScalarStyle = AnyScalar | Plain | SingleQuoted | DoubleQuoted | Literal | Folded

  /** `%YAML major.minor`. */
  datatype Version = Version(major: int, minor: int)

  /** `%TAG handle prefix`. */
  datatype TagDirective = TagDirective(handle: string, prefix: string)

  /** The name the decoder writes into a table for a collection style. */
  function NodeStyleName(st: NodeStyle): string
  {
    match st
    case AnyNode => "ANY"
    case BlockNode => "BLOCK"
    case FlowNode => "FLOW"
  }

  /** The name the decoder writes into a table for a scalar style. */
  function ScalarStyleName(st: ScalarStyle): string
  {
    match st
    case AnyScalar => "ANY"
    case Plain => "PLAIN"
    case SingleQuoted => "SINGLE_QUOTED"
    case DoubleQuoted => "DOUBLE_QUOTED"
    case Literal => "LITERAL"
    case Folded => "FOLDED"
  }

  /** Outcome of the encoder's style lookup: a style, or the rejected name. */
  datatype Choice<S> = Chosen(style: S) | Rejected(name: string)

  /**
   * The encoder's collection-style lookup: absent gives ANY, exactly "BLOCK"
   * or "FLOW" gives that style, and every other name is rejected.
   */
  function NodeStyleFromName(name: Option<string>): (r: Choice<NodeStyle>)
    ensures name.None? ==> r == Chosen(AnyNode)
    ensures name.Some? && r.Chosen? ==> r.style != AnyNode && NodeStyleName(r.style) == name.value
    ensures name.Some? && r.Rejected? ==>
      r.name == name.value && forall st: NodeStyle :: st != AnyNode ==> NodeStyleName(st) != name.value
  {
    if name.None? then Chosen(AnyNode)
    else if name.value == "BLOCK" then Chosen(BlockNode)
    else if name.value == "FLOW" then Chosen(FlowNode)
    else Rejected(name.value)
  }

  /**
   * The encoder's scalar-style lookup: absent gives ANY, exactly one of the
   * five names PLAIN ... FOLDED gives that style, and every other name,
   * "ANY" included, is rejected.
   */
  function ScalarStyleFromName(name: Option<string>): (r: Choice<ScalarStyle>)
    ensures name.None? ==> r == Chosen(AnyScalar)
    ensures name.Some? && r.Chosen? ==> r.style != AnyScalar && ScalarStyleName(r.style) == name.value
    ensures name.Some? && r.Rejected? ==>
      r.name == name.value && forall st: ScalarStyle :: st != AnyScalar ==> ScalarStyleName(st) != name.value
  {
    if name.None? then Chosen(AnyScalar)
    else if name.value == "PLAIN" then Chosen(Plain)
    else if name.value == "SINGLE_QUOTED" then Chosen(SingleQuoted)
    else if name.value == "DOUBLE_QUOTED" then Chosen(DoubleQuoted)
    else if name.value == "LITERAL" then Chosen(Literal)
    else if name.value == "FOLDED" then Chosen(Folded)
    else Rejected(name.value)
  }

  /**
   * A collection style name written by the decoder is accepted back by the
   * encoder exactly when it is not "ANY".
   */
  lemma NodeStyleNameRoundTrip(st: NodeStyle)
    ensures st != AnyNode ==> NodeStyleFromName(Some(NodeStyleName(st))) == Chosen(st)
    ensures st == AnyNode ==> NodeStyleFromName(Some(NodeStyleName(st))) == Rejected("ANY")
  {
  }

  /**
   * A scalar style name written by the decoder is accepted back by the
   * encoder exactly when it is not "ANY".
   */
  lemma ScalarStyleNameRoundTrip(st: ScalarStyle)
    ensures st != AnyScalar ==> ScalarStyleFromName(Some(ScalarStyleName(st))) == Chosen(st)
    ensures st == AnyScalar ==> ScalarStyleFromName(Some(ScalarStyleName(st))) == Rejected("ANY")
  {
  }

  /** Distinct collection styles are given distinct names, so a decoded name identifies its style. */
  lemma NodeStyleNamesDistinct(a: NodeStyle, b: NodeStyle)
    ensures NodeStyleName(a) == NodeStyleName(b) ==> a == b
  {
  }

  /** Distinct scalar styles are given distinct names, so a decoded name identifies its style. */
  lemma ScalarStyleNamesDistinct(a: ScalarStyle, b: ScalarStyle)
    ensures ScalarStyleName(a) == ScalarStyleName(b) ==> a == b
  {
  }

  /** Style names are matched case-sensitively: "block" is not "BLOCK". */
  lemma StyleNamesAreCaseSensitive()
    ensures NodeStyleFromName(Some("block")) == Rejected("block")
    ensures ScalarStyleFromName(Some("plain")) == Rejected("plain")
  {
  }
}
