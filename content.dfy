/** The content handed to `LiftUp` and `LiftUp.Item`, after `Children.toArray`. */
module Content {
  import opened Wrappers
  import opened Configuration

  /** A child that is not a `LiftUp.Item`: a string, or anything else (element, fragment, number). */
  datatype Node = Text(s: string) | Opaque(id: nat)

  /** The `children` prop of a `LiftUp.Item`: one child, or a list of children. */
  datatype Children = Single(node: Node) | Many(nodes: seq<Node>)

  /** A `LiftUp.Item` element: its two optional overrides and its children. */
  datatype ItemElement = ItemElement(springConfig: Option<SpringConfig>, spaceWidth: SpaceWidth, children: Children)

  /** A child of `LiftUp`: an explicit `LiftUp.Item`, or a bare fragment. */
  datatype Fragment = Item(item: ItemElement) | Bare(node: Node)

  /** A `LiftUp.Item` with no overrides around the given children, as `LiftUp` builds for implicit lines. */
  function Implicit(children: Children): ItemElement {
    ItemElement(None, Unset, children)
  }
}
