/** The translator's reaction to each parser event, as functions on a
    value of its whole state: the stack of open blocks, the inline style
    mask, the "first non-document block" flag, the raw bytes handed to the
    output writer and the log of style changes. */
module Translation {
  import opened Bytes
  import opened Wrappers
  import opened Entities

  // ---------------------------------------------------------------------
  // Styles (style.h)

  const STYLE_TEXT_PLAIN: bv16 := 0
  const STYLE_TEXT_MASK_STRONG: bv16 := 1
  const STYLE_TEXT_MASK_EMPHASIZED: bv16 := 2

  datatype StyleType = HeaderStyle | TextStyle | QuoteStyle | CodeStyle

  /** The header size argument of a style change. The span hooks read the
      header level out of whatever frame is innermost, which is only a
      header level when that frame is a header. */
  datatype HeaderSize = Size(n: nat) | Unspecified

  /** One call of setStyle, with the output position at the time. */
  datatype StyleCall = StyleCall(style: StyleType, mask: bv16, headerSize: HeaderSize, pos: nat)

  // ---------------------------------------------------------------------
  // Events

  datatype BlockType =
    | DocType | QuoteType | ULType | OLType | LIType | HRType | HType | CodeType | PType
    | OtherBlockType(code: int)

  /** A block as the parser announces it: its type and its detail record. */
  datatype Block =
    | Doc
    | Quote
    | UL(isTight: bool, mark: byte)
    | OL(start: nat, isTight: bool, delimiter: byte)
    | LI
    | HR
    | H(level: nat)
    | Code(fenceChar: byte)
    | P
    | OtherBlock(code: int)
  {
    function Type(): BlockType {
      match this
      case Doc => DocType
      case Quote => QuoteType
      case UL(_, _) => ULType
      case OL(_, _, _) => OLType
      case LI => LIType
      case HR => HRType
      case H(_) => HType
      case Code(_) => CodeType
      case P => PType
      case OtherBlock(c) => OtherBlockType(c)
    }
  }

  datatype SpanType = Em | Strong | Link | Img | CodeSpan | OtherSpan(code: int)

  datatype TextType = Normal | NullChar | Br | SoftBr | EntityText | CodeText | OtherText(code: int)

  // ---------------------------------------------------------------------
  // State

  /** An open block: the block with its (possibly updated) detail, the tab
      depth of its list items and its style type. */
  datatype Frame = Frame(block: Block, numTabs: nat, style: StyleType)

  /** The innermost open block is the last element of stack. */
  datatype State = State(stack: seq<Frame>, mask: bv16, first: bool, out: seq<byte>, log: seq<StyleCall>)

  /** The state after an event and the hook's return code (0 or 1). */
  datatype Outcome = Outcome(s: State, rc: nat)

  const INITIAL: State := State([], STYLE_TEXT_PLAIN, true, [], [])

  const BULLET: byte := 0xa5
  const RULE_LENGTH: nat := 30

  function Top(stack: seq<Frame>): Frame
    requires stack != []
  {
    stack[|stack| - 1]
  }

  function SetStyle(s: State, style: StyleType, mask: bv16, size: HeaderSize): State {
    s.(log := s.log + [StyleCall(style, mask, size, |s.out|)])
  }

  function Write(s: State, bytes: seq<byte>): State {
    s.(out := s.out + bytes)
  }

  /** The output and the style log only grow. */
  predicate Extends(s: State, s': State) {
    && s.out <= s'.out
    && s.log <= s'.log
  }

  // ---------------------------------------------------------------------
  // Entering a block

  /** The frame pushed for block b: tab depth and a quote style come from
      the enclosing frame, lists add a tab level, and document, quote,
      header and code blocks set their own style type. */
  function NewFrame(stack: seq<Frame>, b: Block): Frame {
    var inherited :=
      if stack == [] then Frame(b, 0, TextStyle)
      else Frame(b, Top(stack).numTabs, if Top(stack).style == QuoteStyle then QuoteStyle else TextStyle);
    match b
    case Doc => inherited.(style := TextStyle)
    case Quote => inherited.(style := QuoteStyle)
    case UL(_, _) => inherited.(numTabs := inherited.numTabs + 1)
    case OL(_, _, _) => inherited.(numTabs := inherited.numTabs + 1)
    case H(_) => inherited.(style := HeaderStyle)
    case Code(_) => inherited.(style := CodeStyle)
    case _ => inherited
  }

  /** Whether a carriage return may precede the block (stack is the stack
      before the block is pushed). */
  function ShouldInsertCR(stack: seq<Frame>, b: Block): bool {
    match b
    case Doc => false
    case Quote => false
    case H(_) => false
    case LI =>
      if stack == [] then true
      else (match Top(stack).block
            case OL(_, tight, _) => !tight
            case UL(tight, _) => !tight
            case _ => true)
    case _ => true
  }

  /** sprintf("%u%c ", start, delimiter) measured with strlen, or the
      bullet and a space outside an ordered list. */
  function ListMarker(enclosing: Frame): seq<byte> {
    match enclosing.block
    case OL(start, _, d) => if d == NUL then Decimal(start) else Decimal(start) + [d, SPACE]
    case _ => [BULLET, SPACE]
  }

  /** The list item takes the next number of its ordered list. */
  function NextNumber(stack: seq<Frame>): seq<Frame>
    requires |stack| >= 2
  {
    var parent := stack[|stack| - 2];
    match parent.block
    case OL(start, tight, d) => stack[|stack| - 2 := parent.(block := OL(start + 1, tight, d))]
    case _ => stack
  }

  /** enterBlockHook. */
  function EnterBlock(s: State, b: Block): (r: Outcome)
    ensures Extends(s, r.s)
  {
    var frame := NewFrame(s.stack, b);
    var pushed := s.(stack := s.stack + [frame]);
    if (b.LI? && s.stack == []) || b.OtherBlock? then Outcome(pushed, 1)
    else
      var s1 := if b.H? then Write(SetStyle(pushed, TextStyle, s.mask, Size(0)), if s.first then [] else [CR])
                else pushed;
      var s2 := SetStyle(s1, frame.style, s.mask, Size(if b.H? then b.level else 0));
      var s3 := Write(s2, if !s.first && ShouldInsertCR(s.stack, b) then [CR] else []);
      var s4 :=
        if b.LI? then Write(s3.(stack := NextNumber(s3.stack)), Repeat(TAB, frame.numTabs) + ListMarker(Top(s.stack)))
        else if b.HR? then Write(s3, Repeat(UNDERSCORE, RULE_LENGTH))
        else s3;
      Outcome(s4.(first := s.first && b.Doc?), 0)
  }

  // ---------------------------------------------------------------------
  // Leaving a block

  predicate WritesTrailingCR(t: BlockType) {
    t == LIType || t == HRType || t == HType || t == PType
  }

  /** leaveBlockHook. */
  function LeaveBlock(s: State, t: BlockType): (r: Outcome)
    ensures Extends(s, r.s)
  {
    if s.stack == [] || Top(s.stack).block.Type() != t then Outcome(s, 1)
    else
      var popped := s.(stack := s.stack[..|s.stack| - 1]);
      if t.OtherBlockType? then Outcome(popped, 1)
      else
        var s1 := if t == HType && popped.stack != [] then SetStyle(popped, Top(popped.stack).style, s.mask, Size(0))
                  else popped;
        var s2 := Write(s1, if WritesTrailingCR(t) then [CR] else []);
        var s3 := if s2.stack != [] then SetStyle(s2, Top(s2.stack).style, s.mask, Size(0)) else s2;
        Outcome(s3, 0)
  }

  // ---------------------------------------------------------------------
  // Spans

  /** The header size the span hooks pass: the level of the innermost
      frame when it is a header. */
  function SpanSize(stack: seq<Frame>): HeaderSize
    requires stack != []
  {
    if Top(stack).block.H? then Size(Top(stack).block.level) else Unspecified
  }

  /** The span hooks read the innermost frame for these span types. */
  predicate ReadsFrame(t: SpanType) {
    t.Em? || t.Strong? || t.CodeSpan?
  }

  /** enterSpanHook. */
  function EnterSpan(s: State, t: SpanType): (r: Outcome)
    requires (t.Em? || t.Strong?) ==> s.stack != []
    ensures Extends(s, r.s)
  {
    match t
    case Em =>
      var m := s.mask | STYLE_TEXT_MASK_EMPHASIZED;
      Outcome(SetStyle(s.(mask := m), Top(s.stack).style, m, SpanSize(s.stack)), 0)
    case Strong =>
      var m := s.mask | STYLE_TEXT_MASK_STRONG;
      Outcome(SetStyle(s.(mask := m), Top(s.stack).style, m, SpanSize(s.stack)), 0)
    case Link => Outcome(s, 0)
    case Img => Outcome(s, 0)
    case CodeSpan => Outcome(SetStyle(s, CodeStyle, STYLE_TEXT_PLAIN, Size(0)), 0)
    case OtherSpan(_) => Outcome(s, 1)
  }

  /** The mask with the bits of bit cleared. */
  function Without(m: bv16, bit: bv16): bv16 {
    m & !bit
  }

  /** leaveSpanHook. */
  function LeaveSpan(s: State, t: SpanType): (r: Outcome)
    requires ReadsFrame(t) ==> s.stack != []
    ensures Extends(s, r.s)
    ensures r.s.out == s.out && r.s.stack == s.stack
  {
    match t
    case Em =>
      var m := Without(s.mask, STYLE_TEXT_MASK_EMPHASIZED);
      Outcome(SetStyle(s.(mask := m), Top(s.stack).style, m, SpanSize(s.stack)), 0)
    case Strong =>
      var m := Without(s.mask, STYLE_TEXT_MASK_STRONG);
      Outcome(SetStyle(s.(mask := m), Top(s.stack).style, m, SpanSize(s.stack)), 0)
    case Link => Outcome(s, 0)
    case Img => Outcome(s, 0)
    case CodeSpan => Outcome(SetStyle(s, Top(s.stack).style, s.mask, SpanSize(s.stack)), 0)
    case OtherSpan(_) => Outcome(s, 1)
  }

  // ---------------------------------------------------------------------
  // Text

  /** The bytes printEntity writes for a token: at most one. */
  function EntityBytes(token: seq<byte>): (r: seq<byte>)
    ensures |r| <= 1
    ensures r != [] ==> WellFramed(token) && Resolve(token) == Some(r[0])
  {
    match Resolve(token)
    case Some(b) => [b]
    case None => []
  }

  /** textHook. */
  function Text(s: State, t: TextType, text: seq<byte>): (r: Outcome)
    ensures Extends(s, r.s)
  {
    match t
    case Normal => Outcome(Write(s, text), 0)
    case CodeText => Outcome(Write(s, text), 0)
    case NullChar => Outcome(s, 1)
    case Br => Outcome(Write(s, [LF]), 0)
    case SoftBr => Outcome(s, 0)
    case EntityText => Outcome(Write(s, EntityBytes(text)), 0)
    case OtherText(_) => Outcome(s, 1)
  }
}
