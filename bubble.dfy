/** How a message's direction decides its cell and its bubble: which cell class
    the table dequeues, which three corners of the bubble are rounded, and the
    bubble's fill. */
module Bubble {
  import opened ChatModel

  datatype Corner = TopLeft | TopRight | BottomLeft | BottomRight

  /** The bubble's background: `LightGray` is white at level 0.9, opaque. */
  datatype Fill = LightGray | Yellow

  /** The corners the bubble's mask rounds, and its background. */
  datatype BubbleStyle = BubbleStyle(rounded: set<Corner>, fill: Fill)

  const AllCorners: set<Corner> := {TopLeft, TopRight, BottomLeft, BottomRight}

  /** The one corner left square: the top corner on the speaker's side. */
  function SquareCorner(sor: SOR): Corner {
    match sor
    case Received => TopLeft
    case Sent => TopRight
  }

  /** The left-right reflection of a corner. */
  function Mirror(c: Corner): Corner {
    match c
    case TopLeft => TopRight
    case TopRight => TopLeft
    case BottomLeft => BottomRight
    case BottomRight => BottomLeft
  }

  /** The bubble's look on a layout pass. A received message squares its top-left
      corner on a light gray fill; anything else squares its top-right corner on
      yellow. */
  function Style(sor: SOR): (s: BubbleStyle)
    ensures s.rounded == AllCorners - {SquareCorner(sor)}
    ensures |s.rounded| == 3
    ensures s.fill == LightGray <==> sor == Received
  {
    if sor == Received then
      BubbleStyle({BottomLeft, BottomRight, TopRight}, LightGray)
    else
      BubbleStyle({TopLeft, BottomLeft, BottomRight}, Yellow)
  }

  /** The two directions give two different bubbles. */
  lemma StyleExclusive(a: SOR, b: SOR)
    ensures Style(a) == Style(b) <==> a == b
  {
    if a != b {
      assert Style(a).fill != Style(b).fill;
    }
  }

  /** A sent bubble is a received bubble reflected left to right. */
  lemma StylesMirrored()
    ensures forall c :: c in Style(Sent).rounded <==> Mirror(c) in Style(Received).rounded
    ensures Mirror(SquareCorner(Received)) == SquareCorner(Sent)
  {
  }

  /** The cell classes: the shared base and its two nib-backed subclasses. */
  datatype CellClass = ChatCellBase | ReceivedCell | SentCell

  /** The `sentOrReceived` property each class overrides; the base says received. */
  function CellDirection(c: CellClass): (sor: SOR)
    ensures sor == Sent <==> c == SentCell
  {
    match c
    case ChatCellBase => Received
    case ReceivedCell => Received
    case SentCell => Sent
  }

  /** The cell class the table dequeues for a message of direction `sor`. */
  function CellClassFor(sor: SOR): (c: CellClass)
    ensures c != ChatCellBase
    ensures CellDirection(c) == sor
  {
    if sor == Received then ReceivedCell else SentCell
  }

  /** Dequeuing is one-to-one: each direction has its own cell class. */
  lemma CellClassForInjective(a: SOR, b: SOR)
    ensures CellClassFor(a) == CellClassFor(b) <==> a == b
  {
  }

  /** The bubble view. `mask` and `backgroundColor` stay unset until the first
      layout pass. */
  class ChatBubbleView {
    var sentOrReceived: SOR
    var mask: Option<set<Corner>>
    var backgroundColor: Option<Fill>

    constructor ()
      ensures sentOrReceived == Received && mask == None && backgroundColor == None
    {
      sentOrReceived := Received;
      mask := None;
      backgroundColor := None;
    }

    /** Rounds the corners and paints the fill that the direction asks for. */
    method LayoutSubviews()
      modifies this
      ensures sentOrReceived == old(sentOrReceived)
      ensures mask == Some(Style(sentOrReceived).rounded)
      ensures backgroundColor == Some(Style(sentOrReceived).fill)
    {
      if sentOrReceived == Received {
        mask := Some({BottomLeft, BottomRight, TopRight});
        backgroundColor := Some(LightGray);
      } else {
        mask := Some({TopLeft, BottomLeft, BottomRight});
        backgroundColor := Some(Yellow);
      }
    }
  }

  /** A table cell of one of the three classes, holding its bubble. */
  class ChatCell {
    const cellClass: CellClass
    const chatBubble: ChatBubbleView

    constructor (c: CellClass, bubble: ChatBubbleView)
      ensures cellClass == c && chatBubble == bubble
    {
      cellClass := c;
      chatBubble := bubble;
    }

    /** Hands the cell's direction to its bubble; nothing else changes. */
    method LayoutSubviews()
      modifies chatBubble`sentOrReceived
      ensures chatBubble.sentOrReceived == CellDirection(cellClass)
    {
      chatBubble.sentOrReceived := CellDirection(cellClass);
    }
  }

  /** A cell dequeued for a message, once laid out, and its bubble, once laid
      out, show the message's own bubble style. */
  method LayOutCellFor(sor: SOR) returns (style: BubbleStyle)
    ensures style == Style(sor)
    ensures style.rounded == AllCorners - {SquareCorner(sor)}
  {
    var bubble := new ChatBubbleView();
    var cell := new ChatCell(CellClassFor(sor), bubble);
    cell.LayoutSubviews();
    bubble.LayoutSubviews();
    style := BubbleStyle(bubble.mask.value, bubble.backgroundColor.value);
  }
}
