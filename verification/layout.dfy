/** The layout blocks ("flowables") a resume story is made of, and the story
    list the builder appends them to before it is handed to the page layout
    library. */
module Layout {

  /** The named paragraph styles of the generator's style sheet. Their fonts,
      sizes, colours and spacing are not part of this model. */
  datatype Style =
    | NameTitle
    | JobTitle
    | SectionTitle
    | ContactInfo
    | SummaryText
    | CustomBodyText
    | LinkStyle
    | Company
    | Position
    | DateStyle

  /** The two horizontal rules: under a section title, and above the footer. */
  datatype RuleKind = SectionRule | FooterRule

  /** One cell of a table: a paragraph with its style. */
  datatype Cell = Cell(text: string, style: Style)

  /** A layout block. Spacer heights are in tenths of an inch; paragraph text
      keeps the inline markup (<b>, <font>) the page layout library reads. */
  datatype Block =
    | Spacer(tenthsOfInch: nat)
    | Paragraph(text: string, style: Style)
    | HorizontalRule(kind: RuleKind)
    | Table(rows: seq<seq<Cell>>)

  /** The blocks f gives for each element of xs, one element after another:
      what a loop that appends f(x) for each x leaves behind it. */
  function Concat<T>(xs: seq<T>, f: T -> seq<Block>): seq<Block>
  {
    if xs == [] then [] else Concat(xs[..|xs| - 1], f) + f(xs[|xs| - 1])
  }

  /** One more turn of such a loop. */
  lemma ConcatStep<T>(xs: seq<T>, i: nat, f: T -> seq<Block>)
    requires i < |xs|
    ensures Concat(xs[..i + 1], f) == Concat(xs[..i], f) + f(xs[i])
  {
    assert xs[..i + 1][..i] == xs[..i];
  }

  /** ... and the loop is done. */
  lemma ConcatAll<T>(xs: seq<T>, f: T -> seq<Block>)
    ensures Concat(xs[..|xs|], f) == Concat(xs, f)
  {
    assert xs[..|xs|] == xs;
  }

  /** A loop over one element. */
  lemma ConcatOne<T>(x: T, f: T -> seq<Block>)
    ensures Concat([x], f) == f(x)
  {
    assert [x][..0] == [];
  }

  lemma AppendAssoc<T>(a: seq<T>, b: seq<T>, c: seq<T>)
    ensures a + (b + c) == (a + b) + c
  {
  }

  /** The Python list the story is built in: blocks are only ever appended. */
  class StoryList {
    var blocks: seq<Block>

    constructor ()
      ensures blocks == []
    {
      blocks := [];
    }

    /** list.append */
    method Append(b: Block)
      modifies this
      ensures blocks == old(blocks) + [b]
    {
      blocks := blocks + [b];
    }
  }
}
