/** What the translator's hooks promise, stated over the functions of the
    Translation module. */
module TranslationFacts {
  import opened Bytes
  import opened Wrappers
  import opened Entities
  import opened Translation

  /** Whether a frame is a tight list (only lists can be tight). */
  predicate Tight(f: Frame) {
    match f.block
    case UL(tight, _) => tight
    case OL(_, tight, _) => tight
    case _ => false
  }

  predicate IsList(b: Block) {
    b.UL? || b.OL?
  }

  // ---------------------------------------------------------------------
  // Entering a block

  /** An enter event fails (return code 1) exactly for an unknown block
      type or a list item with no enclosing block; either way the frame has
      been pushed but nothing is written, no style is set and the flag is
      kept. On success the flag is cleared unless the block is the
      document. The mask is never changed. */
  lemma EnterBlockResult(s: State, b: Block)
    ensures var r := EnterBlock(s, b);
      && (r.rc == 1 <==> b.OtherBlock? || (b.LI? && s.stack == []))
      && (r.rc == 0 || r.rc == 1)
      && r.s.mask == s.mask
      && (r.rc == 1 ==> r.s.out == s.out && r.s.log == s.log && r.s.first == s.first)
      && (r.rc == 0 ==> r.s.first == (s.first && b.Doc?))
  {
  }

  /** The stack after an enter event: the new frame pushed, and for a list
      item the enclosing list renumbered. */
  lemma EnterBlockStack(s: State, b: Block)
    ensures var f := NewFrame(s.stack, b);
      && f.block == b
      && f.numTabs == (if s.stack == [] then 0 else Top(s.stack).numTabs) + (if IsList(b) then 1 else 0)
      && EnterBlock(s, b).s.stack ==
           if b.LI? && s.stack != [] then NextNumber(s.stack + [f]) else s.stack + [f]
  {
  }

  /** Exactly one frame is pushed. It records the block, its tab depth is
      the enclosing frame's (0 without one) plus one for a list, and its
      style type is forced by document, quote, header and code blocks and
      otherwise is quote inside a quote and text elsewhere. Frames below
      are untouched, except that a list item bumps the number of its
      enclosing ordered list. */
  lemma EnterBlockFrame(s: State, b: Block)
    ensures var r := EnterBlock(s, b);
      var n := |s.stack|;
      && |r.s.stack| == n + 1
      && r.s.stack[n].block == b
      && r.s.stack[n].numTabs == (if n == 0 then 0 else s.stack[n - 1].numTabs) + (if IsList(b) then 1 else 0)
      && r.s.stack[n].style ==
           (if b.Doc? then TextStyle
            else if b.Quote? then QuoteStyle
            else if b.H? then HeaderStyle
            else if b.Code? then CodeStyle
            else if n > 0 && s.stack[n - 1].style == QuoteStyle then QuoteStyle
            else TextStyle)
      && (forall i :: 0 <= i < n - 1 ==> r.s.stack[i] == s.stack[i])
      && (n > 0 && !(b.LI? && s.stack[n - 1].block.OL?) ==> r.s.stack[n - 1] == s.stack[n - 1])
      && (n > 0 && b.LI? && s.stack[n - 1].block.OL? ==>
            var e := s.stack[n - 1];
            r.s.stack[n - 1] == e.(block := e.block.(start := e.block.start + 1)))
  {
    EnterBlockStack(s, b);
  }

  /** On success the block's style is set before any of its bytes is
      written: the only byte that may precede it is the carriage return a
      header writes after resetting to the text style. */
  lemma EnterBlockStyleFirst(s: State, b: Block)
    requires EnterBlock(s, b).rc == 0
    ensures var r := EnterBlock(s, b);
      var p := |s.out| + (if b.H? && !s.first then 1 else 0);
      && |r.s.stack| == |s.stack| + 1
      && |r.s.log| == |s.log| + (if b.H? then 2 else 1)
      && (b.H? ==> r.s.log[|s.log|] == StyleCall(TextStyle, s.mask, Size(0), |s.out|))
      && r.s.log[|r.s.log| - 1] == StyleCall(r.s.stack[|s.stack|].style, s.mask, Size(if b.H? then b.level else 0), p)
      && p <= |r.s.out|
      && r.s.out[..p] == s.out + (if b.H? && !s.first then [CR] else [])
  {
    EnterBlockFrame(s, b);
  }

  /** The bytes an enter event writes, block type by block type. A
      carriage return comes first unless this is the first block other than
      the document, the block is a document, quote or header (a header
      writes its own), or it is an item of a tight list. */
  lemma EnterBlockBytes(s: State, b: Block)
    ensures var r := EnterBlock(s, b);
      var cr: seq<byte> := if s.first then [] else [CR];
      && (b.Doc? || b.Quote? ==> r.s.out == s.out)
      && (IsList(b) || b.P? || b.Code? || b.H? ==> r.s.out == s.out + cr)
      && (b.HR? ==> r.s.out == s.out + cr + Repeat(UNDERSCORE, RULE_LENGTH))
      && (b.LI? && s.stack != [] ==>
            var e := Top(s.stack);
            r.s.out == s.out + (if Tight(e) then [] else cr) + Repeat(TAB, e.numTabs) + ListMarker(e))
  {
  }

  /** An ordered-list marker is the start number in decimal, read back as
      the same number, followed by the delimiter and a space; outside an
      ordered list the marker is the bullet and a space. */
  lemma ListMarkerNumber(e: Frame)
    ensures !e.block.OL? ==> ListMarker(e) == [BULLET, SPACE]
    ensures e.block.OL? && e.block.delimiter != NUL && !IsDigit(e.block.delimiter, 10) ==>
              var m := ListMarker(e);
              var k := DigitRun(m, 10);
              && k == |m| - 2
              && DigitsValue(m[..k], 10) == e.block.start
              && m[k] == e.block.delimiter
              && m[k + 1] == SPACE
  {
    if e.block.OL? && e.block.delimiter != NUL && !IsDigit(e.block.delimiter, 10) {
      var d := Decimal(e.block.start);
      var m := ListMarker(e);
      DecimalRun(e.block.start, [e.block.delimiter, SPACE]);
      assert m[..|d|] == d;
      DecimalRoundTrip(e.block.start);
    }
  }

  // ---------------------------------------------------------------------
  // Leaving a block

  /** A leave event with an empty stack or a type other than the innermost
      frame's fails and changes nothing. Otherwise exactly the innermost
      frame is popped; for a known type a list item, rule, paragraph or
      header writes one carriage return (the others write nothing) and the
      enclosing frame's style is set again, at the end of the output. */
  lemma LeaveBlockEffect(s: State, t: BlockType)
    ensures var r := LeaveBlock(s, t);
      && (s.stack == [] || Top(s.stack).block.Type() != t ==> r == Outcome(s, 1))
      && (s.stack != [] && Top(s.stack).block.Type() == t ==>
            && r.s.stack == s.stack[..|s.stack| - 1]
            && r.s.mask == s.mask && r.s.first == s.first
            && (t.OtherBlockType? ==> r.rc == 1 && r.s.out == s.out && r.s.log == s.log)
            && (!t.OtherBlockType? ==>
                  && r.rc == 0
                  && r.s.out == s.out + (if WritesTrailingCR(t) then [CR] else [])
                  && (r.s.stack == [] ==> r.s.log == s.log)
                  && (r.s.stack != [] ==>
                        && |r.s.log| == |s.log| + (if t == HType then 2 else 1)
                        && (t == HType ==> r.s.log[|s.log|] == StyleCall(Top(r.s.stack).style, s.mask, Size(0), |s.out|))
                        && r.s.log[|r.s.log| - 1] == StyleCall(Top(r.s.stack).style, s.mask, Size(0), |r.s.out|))))
  {
  }

  /** Leaving the innermost frame by its own type pops exactly that frame. */
  lemma LeaveInnermost(s: State, t: BlockType, below: seq<Frame>)
    requires s.stack != [] && Top(s.stack).block.Type() == t && !t.OtherBlockType?
    requires s.stack[..|s.stack| - 1] == below
    ensures LeaveBlock(s, t).rc == 0 && LeaveBlock(s, t).s.stack == below
  {
  }

  /** An item of an ordered list: the list's number is bumped. */
  lemma EnterLeaveOrderedItem(s: State)
    requires s.stack != [] && Top(s.stack).block.OL?
    ensures var r := LeaveBlock(EnterBlock(s, LI).s, LIType);
      var e := Top(s.stack);
      r.rc == 0 && r.s.stack == s.stack[|s.stack| - 1 := e.(block := e.block.(start := e.block.start + 1))]
  {
    var r1 := EnterBlock(s, LI);
    EnterBlockFrame(s, LI);
    var n := |s.stack|;
    var e := Top(s.stack);
    var below := r1.s.stack[..n];
    assert below == s.stack[n - 1 := e.(block := e.block.(start := e.block.start + 1))];
    LeaveInnermost(r1.s, LIType, below);
  }

  /** Any other block: the stack comes back as it was. */
  lemma EnterLeaveOther(s: State, b: Block)
    requires !b.OtherBlock? && !(b.LI? && s.stack == [])
    requires !(b.LI? && Top(s.stack).block.OL?)
    ensures var r := LeaveBlock(EnterBlock(s, b).s, b.Type());
      r.rc == 0 && r.s.stack == s.stack
  {
    var p := s.stack + [NewFrame(s.stack, b)];
    EnterBlockStack(s, b);
    if b.LI? {
      assert NextNumber(p) == p;
    }
    assert EnterBlock(s, b).s.stack == p;
    assert p[..|s.stack|] == s.stack;
    LeaveInnermost(EnterBlock(s, b).s, b.Type(), s.stack);
  }

  /** Entering a block and leaving it again succeeds and gives back the
      stack, except that a list item leaves its ordered list's number
      bumped. */
  lemma EnterLeaveRestoresStack(s: State, b: Block)
    requires !b.OtherBlock? && !(b.LI? && s.stack == [])
    ensures var r := LeaveBlock(EnterBlock(s, b).s, b.Type());
      && r.rc == 0
      && (!(b.LI? && Top(s.stack).block.OL?) ==> r.s.stack == s.stack)
      && (b.LI? && Top(s.stack).block.OL? ==>
            var e := Top(s.stack);
            r.s.stack == s.stack[|s.stack| - 1 := e.(block := e.block.(start := e.block.start + 1))])
  {
    if b.LI? && Top(s.stack).block.OL? {
      EnterLeaveOrderedItem(s);
    } else {
      EnterLeaveOther(s, b);
    }
  }

  // ---------------------------------------------------------------------
  // List items

  /** The frame of an ordered list whose counter has advanced by k. */
  function Renumbered(e: Frame, k: nat): Frame
    requires e.block.OL?
  {
    e.(block := e.block.(start := e.block.start + k))
  }

  /** Advancing a counter by a and then by b advances it by a + b. */
  lemma RenumberedAdds(e: Frame, a: nat, b: nat)
    requires e.block.OL?
    ensures Renumbered(Renumbered(e, a), b) == Renumbered(e, a + b)
  {
  }

  /** The bytes an item of list frame e writes when it is entered and is
      not the first block: the separating carriage return unless the list
      is tight, the indent and the marker. */
  function ItemHead(e: Frame): seq<byte> {
    (if Tight(e) then [] else [CR]) + Repeat(TAB, e.numTabs) + ListMarker(e)
  }

  /** The bytes a list item writes when it is entered inside a frame. */
  lemma EnterItemBytes(s: State)
    requires s.stack != [] && !s.first
    ensures var r := EnterBlock(s, LI).s;
      && |r.stack| == |s.stack| + 1 && Top(r.stack).block == LI
      && r.out == s.out + ItemHead(Top(s.stack))
  {
    EnterBlockStack(s, LI);
  }

  /** Leaving a list item writes one carriage return and keeps the flag and
      the mask. */
  lemma LeaveItemBytes(s: State)
    requires s.stack != [] && Top(s.stack).block == LI
    ensures var r := LeaveBlock(s, LIType).s;
      r.out == s.out + [CR] && r.first == s.first && r.mask == s.mask
  {
  }

  // ---------------------------------------------------------------------
  // Spans

  /** The mask bit a span type owns. */
  function SpanBit(t: SpanType): bv16
    requires t.Em? || t.Strong?
  {
    if t.Em? then STYLE_TEXT_MASK_EMPHASIZED else STYLE_TEXT_MASK_STRONG
  }

  // Bit facts, one per lemma (the solver handles them one at a time).

  lemma SetBitIsSet(m: bv16, b: bv16)
    ensures (m | b) & b == b
  {
  }

  lemma SetBitKeepsOthers(m: bv16, b: bv16)
    ensures (m | b) & !b == m & !b
  {
  }

  lemma ClearBitIsClear(m: bv16, b: bv16)
    ensures (m & !b) & b == 0
  {
  }

  lemma ClearBitKeepsOthers(m: bv16, b: bv16)
    ensures (m & !b) & !b == m & !b
  {
  }

  /** Entering emphasis or strong emphasis sets its own mask bit, keeps the
      other bits and sets the innermost frame's style with the new mask;
      a code span sets the code style with a plain mask and keeps the mask;
      links and images change nothing and an unknown span type fails and
      changes nothing. No span event writes a byte or touches the stack. */
  lemma EnterSpanEffect(s: State, t: SpanType)
    requires (t.Em? || t.Strong?) ==> s.stack != []
    ensures var r := EnterSpan(s, t);
      && r.s.out == s.out && r.s.stack == s.stack && r.s.first == s.first
      && (r.rc == 1 <==> t.OtherSpan?)
      && (r.rc == 0 || r.rc == 1)
      && (t.Em? || t.Strong? ==>
            && r.s.mask & SpanBit(t) == SpanBit(t)
            && Without(r.s.mask, SpanBit(t)) == Without(s.mask, SpanBit(t))
            && r.s.log == s.log + [StyleCall(Top(s.stack).style, r.s.mask, SpanSize(s.stack), |s.out|)])
      && (t.CodeSpan? ==>
            r.s.mask == s.mask && r.s.log == s.log + [StyleCall(CodeStyle, STYLE_TEXT_PLAIN, Size(0), |s.out|)])
      && (t.Link? || t.Img? || t.OtherSpan? ==> r.s == s)
  {
    if t.Em? || t.Strong? {
      SetBitIsSet(s.mask, SpanBit(t));
      SetBitKeepsOthers(s.mask, SpanBit(t));
    }
  }

  /** Leaving emphasis or strong emphasis clears its own mask bit, keeps the
      other bits and sets the innermost frame's style with the new mask;
      leaving a code span sets the innermost frame's style with the
      unchanged mask. */
  lemma LeaveSpanEffect(s: State, t: SpanType)
    requires ReadsFrame(t) ==> s.stack != []
    ensures var r := LeaveSpan(s, t);
      && r.s.out == s.out && r.s.stack == s.stack && r.s.first == s.first
      && (r.rc == 1 <==> t.OtherSpan?)
      && (r.rc == 0 || r.rc == 1)
      && (t.Em? || t.Strong? ==>
            && r.s.mask & SpanBit(t) == 0
            && Without(r.s.mask, SpanBit(t)) == Without(s.mask, SpanBit(t))
            && r.s.log == s.log + [StyleCall(Top(s.stack).style, r.s.mask, SpanSize(s.stack), |s.out|)])
      && (t.CodeSpan? ==>
            r.s.mask == s.mask && r.s.log == s.log + [StyleCall(Top(s.stack).style, s.mask, SpanSize(s.stack), |s.out|)])
      && (t.Link? || t.Img? || t.OtherSpan? ==> r.s == s)
  {
    if t.Em? || t.Strong? {
      ClearBitIsClear(s.mask, SpanBit(t));
      ClearBitKeepsOthers(s.mask, SpanBit(t));
    }
  }

  /** Emphasis or strong emphasis entered and left again gives back the
      mask when its bit was clear before. */
  lemma StyledSpanRoundTrip(s: State, t: SpanType)
    requires (t.Em? || t.Strong?) && s.stack != []
    ensures var r := LeaveSpan(EnterSpan(s, t).s, t);
      s.mask & SpanBit(t) == 0 ==> r.s.mask == s.mask
  {
  }

  /** A code span entered and left again keeps the mask and gives back the
      innermost frame's style with that mask. */
  lemma CodeSpanRoundTrip(s: State)
    requires s.stack != []
    ensures var r := LeaveSpan(EnterSpan(s, CodeSpan).s, CodeSpan);
      && r.s.mask == s.mask && r.s.stack == s.stack && r.s.out == s.out
      && r.s.log == s.log + [StyleCall(CodeStyle, STYLE_TEXT_PLAIN, Size(0), |s.out|),
                             StyleCall(Top(s.stack).style, s.mask, SpanSize(s.stack), |s.out|)]
  {
  }

  // ---------------------------------------------------------------------
  // Text

  /** A null character or an unknown text type fails and writes nothing; a
      soft break writes nothing; a hard break writes a line feed; normal and
      code text are written as they are; an entity writes at most one byte,
      and only the byte its token resolves to. Text never touches the
      stack, the mask, the flag or the style log. */
  lemma TextEffect(s: State, t: TextType, text: seq<byte>)
    ensures var r := Text(s, t, text);
      && r.s.stack == s.stack && r.s.mask == s.mask && r.s.first == s.first && r.s.log == s.log
      && (r.rc == 1 <==> t.NullChar? || t.OtherText?)
      && (r.rc == 0 || r.rc == 1)
      && (r.rc == 1 || t.SoftBr? ==> r.s.out == s.out)
      && (t.Normal? || t.CodeText? ==> r.s.out == s.out + text)
      && (t.Br? ==> r.s.out == s.out + [LF])
      && (t.EntityText? ==>
            && s.out <= r.s.out && |r.s.out| <= |s.out| + 1
            && (|r.s.out| == |s.out| + 1 <==> Resolve(text).Some?)
            && (Resolve(text).Some? ==> WellFramed(text) && r.s.out[|s.out|] == Resolve(text).value))
  {
  }

  // ---------------------------------------------------------------------
  // Invariants of a whole run

  /** Any event of the parser. */
  datatype Event =
    | EnterBlockEvent(b: Block)
    | LeaveBlockEvent(t: BlockType)
    | EnterSpanEvent(span: SpanType)
    | LeaveSpanEvent(span: SpanType)
    | TextEvent(kind: TextType, text: seq<byte>)

  /** Span events that read the innermost frame need one (the parser only
      sends spans inside a block). */
  predicate Allowed(s: State, ev: Event) {
    ev.EnterSpanEvent? || ev.LeaveSpanEvent? ==> !ReadsFrame(ev.span) || s.stack != []
  }

  function Step(s: State, ev: Event): Outcome
    requires Allowed(s, ev)
  {
    match ev
    case EnterBlockEvent(b) => EnterBlock(s, b)
    case LeaveBlockEvent(t) => LeaveBlock(s, t)
    case EnterSpanEvent(t) => EnterSpan(s, t)
    case LeaveSpanEvent(t) => LeaveSpan(s, t)
    case TextEvent(t, text) => Text(s, t, text)
  }

  /** How many list frames there are in stack. */
  function CountLists(stack: seq<Frame>): nat {
    if stack == [] then 0
    else CountLists(stack[..|stack| - 1]) + (if IsList(Top(stack).block) then 1 else 0)
  }

  /** Every frame's tab depth is the number of lists open at or below it. */
  predicate TabsCountLists(stack: seq<Frame>) {
    forall i :: 0 <= i < |stack| ==> stack[i].numTabs == CountLists(stack[..i + 1])
  }

  /** Every style change is logged at a position within the output, and
      positions never decrease: the log splits the output into runs in
      order. */
  predicate LogOrdered(s: State) {
    && (forall i :: 0 <= i < |s.log| ==> s.log[i].pos <= |s.out|)
    && (forall i, j :: 0 <= i < j < |s.log| ==> s.log[i].pos <= s.log[j].pos)
  }

  predicate Inv(s: State) {
    TabsCountLists(s.stack) && LogOrdered(s)
  }

  lemma InitialInv()
    ensures Inv(INITIAL)
  {
  }

  /** Frames that agree on their blocks' kinds count the same lists. */
  lemma {:induction false} CountListsSameKinds(a: seq<Frame>, b: seq<Frame>)
    requires |a| == |b|
    requires forall i :: 0 <= i < |a| ==> IsList(a[i].block) == IsList(b[i].block)
    ensures CountLists(a) == CountLists(b)
  {
    if a != [] {
      CountListsSameKinds(a[..|a| - 1], b[..|b| - 1]);
    }
  }

  /** Pushing a frame whose tab depth is the enclosing frame's plus one for
      a list keeps the tab depths counting lists. */
  lemma PushKeepsTabs(stack: seq<Frame>, f: Frame)
    requires TabsCountLists(stack)
    requires f.numTabs == (if stack == [] then 0 else Top(stack).numTabs) + (if IsList(f.block) then 1 else 0)
    ensures TabsCountLists(stack + [f])
  {
    var st := stack + [f];
    forall i | 0 <= i < |st|
      ensures st[i].numTabs == CountLists(st[..i + 1])
    {
      if i < |stack| {
        assert st[..i + 1] == stack[..i + 1];
      } else {
        assert st[..i + 1] == st;
        assert st[..|st| - 1] == stack;
        if stack != [] {
          assert stack[..|stack|] == stack;
        }
      }
    }
  }

  /** Popping keeps the tab depths counting lists. */
  lemma PopKeepsTabs(stack: seq<Frame>)
    requires TabsCountLists(stack) && stack != []
    ensures TabsCountLists(stack[..|stack| - 1])
  {
    var st := stack[..|stack| - 1];
    forall i | 0 <= i < |st|
      ensures st[i].numTabs == CountLists(st[..i + 1])
    {
      assert st[..i + 1] == stack[..i + 1];
    }
  }

  /** Bumping an ordered list's number keeps the tab depths counting
      lists. */
  lemma RenumberKeepsTabs(stack: seq<Frame>, k: nat)
    requires TabsCountLists(stack) && k < |stack| && stack[k].block.OL?
    ensures TabsCountLists(stack[k := Renumbered(stack[k], 1)])
  {
    var st := stack[k := Renumbered(stack[k], 1)];
    forall i | 0 <= i < |st|
      ensures st[i].numTabs == CountLists(st[..i + 1])
    {
      CountListsSameKinds(st[..i + 1], stack[..i + 1]);
    }
  }

  /** Appending style calls at the current end of the output, then bytes,
      keeps the log in order. */
  lemma AppendKeepsOrder(s: State, s': State)
    requires LogOrdered(s)
    requires s.out <= s'.out && s.log <= s'.log
    requires forall i :: |s.log| <= i < |s'.log| ==> |s.out| <= s'.log[i].pos <= |s'.out|
    requires forall i, j :: |s.log| <= i < j < |s'.log| ==> s'.log[i].pos <= s'.log[j].pos
    ensures LogOrdered(s')
  {
  }

  /** Entering a block keeps the tab depths counting lists. */
  lemma EnterBlockKeepsTabs(s: State, b: Block)
    requires TabsCountLists(s.stack)
    ensures TabsCountLists(EnterBlock(s, b).s.stack)
  {
    var f := NewFrame(s.stack, b);
    EnterBlockStack(s, b);
    PushKeepsTabs(s.stack, f);
    var p := s.stack + [f];
    var n := |s.stack|;
    if b.LI? && n > 0 {
      if s.stack[n - 1].block.OL? {
        RenumberKeepsTabs(p, n - 1);
        assert NextNumber(p) == p[n - 1 := Renumbered(p[n - 1], 1)];
      } else {
        assert NextNumber(p) == p;
      }
    }
  }

  /** Entering a block keeps the log in order. */
  lemma EnterBlockKeepsOrder(s: State, b: Block)
    requires LogOrdered(s)
    ensures LogOrdered(EnterBlock(s, b).s)
  {
    EnterBlockResult(s, b);
    if EnterBlock(s, b).rc == 0 {
      EnterBlockStyleFirst(s, b);
    }
    AppendKeepsOrder(s, EnterBlock(s, b).s);
  }

  lemma EnterBlockKeepsInv(s: State, b: Block)
    requires Inv(s)
    ensures Inv(EnterBlock(s, b).s)
  {
    EnterBlockKeepsTabs(s, b);
    EnterBlockKeepsOrder(s, b);
  }

  lemma LeaveBlockKeepsInv(s: State, t: BlockType)
    requires Inv(s)
    ensures Inv(LeaveBlock(s, t).s)
  {
    LeaveBlockEffect(s, t);
    if s.stack != [] && Top(s.stack).block.Type() == t {
      PopKeepsTabs(s.stack);
    }
    AppendKeepsOrder(s, LeaveBlock(s, t).s);
  }

  /** Every event keeps the invariant. */
  lemma StepKeepsInv(s: State, ev: Event)
    requires Inv(s) && Allowed(s, ev)
    ensures Inv(Step(s, ev).s)
  {
    match ev
    case EnterBlockEvent(b) =>
      EnterBlockKeepsInv(s, b);
    case LeaveBlockEvent(t) =>
      LeaveBlockKeepsInv(s, t);
    case EnterSpanEvent(t) =>
      EnterSpanKeepsInv(s, t);
    case LeaveSpanEvent(t) =>
      LeaveSpanKeepsInv(s, t);
    case TextEvent(t, text) =>
      TextKeepsInv(s, t, text);
  }

  lemma EnterSpanKeepsInv(s: State, t: SpanType)
    requires Inv(s) && (ReadsFrame(t) ==> s.stack != [])
    ensures Inv(EnterSpan(s, t).s)
  {
    EnterSpanEffect(s, t);
    AppendKeepsOrder(s, EnterSpan(s, t).s);
  }

  lemma LeaveSpanKeepsInv(s: State, t: SpanType)
    requires Inv(s) && (ReadsFrame(t) ==> s.stack != [])
    ensures Inv(LeaveSpan(s, t).s)
  {
    LeaveSpanEffect(s, t);
    AppendKeepsOrder(s, LeaveSpan(s, t).s);
  }

  lemma TextKeepsInv(s: State, t: TextType, text: seq<byte>)
    requires Inv(s)
    ensures Inv(Text(s, t, text).s)
  {
    TextEffect(s, t, text);
    AppendKeepsOrder(s, Text(s, t, text).s);
  }

  // ---------------------------------------------------------------------
  // Runs of events

  /** The parser's run over a sequence of events: each event goes to its
      hook, and the run stops at the first hook that returns non-zero. A
      span that reads the innermost frame with no block open would
      dereference NULL in the program; the run stops there too. */
  function Run(s: State, evs: seq<Event>): State
    decreases |evs|
  {
    if evs == [] || !Allowed(s, evs[0]) then s
    else
      var o := Step(s, evs[0]);
      if o.rc != 0 then o.s else Run(o.s, evs[1..])
  }

  /** Every state of a run satisfies the invariant. */
  lemma {:induction false} RunKeepsInv(s: State, evs: seq<Event>)
    requires Inv(s)
    ensures Inv(Run(s, evs))
    decreases |evs|
  {
    if evs != [] && Allowed(s, evs[0]) {
      StepKeepsInv(s, evs[0]);
      RunKeepsInv(Step(s, evs[0]).s, evs[1..]);
    }
  }

  /** Every event of evs succeeds and leaves more than d frames open: the
      run never closes the frame at index d. */
  predicate Inside(s: State, evs: seq<Event>, d: nat)
    decreases |evs|
  {
    evs == [] ||
    (&& Allowed(s, evs[0])
     && Step(s, evs[0]).rc == 0
     && |Step(s, evs[0]).s.stack| > d
     && Inside(Step(s, evs[0]).s, evs[1..], d))
  }

  /** An event that leaves more than d frames open keeps the frames up to
      index d, when the frame at d is not an ordered list (only an ordered
      list's counter changes in place). It never sets the first-block flag
      again and only appends to the output. */
  lemma StepKeepsPrefix(s: State, ev: Event, d: nat)
    requires Allowed(s, ev) && d < |s.stack| && !s.stack[d].block.OL?
    requires |Step(s, ev).s.stack| > d
    ensures var r := Step(s, ev).s;
      && r.stack[..d + 1] == s.stack[..d + 1]
      && (!s.first ==> !r.first)
      && s.out <= r.out
  {
    var n := |s.stack|;
    match ev
    case EnterBlockEvent(b) =>
      EnterBlockResult(s, b);
      EnterBlockStack(s, b);
      var p := s.stack + [NewFrame(s.stack, b)];
      assert p[..d + 1] == s.stack[..d + 1];
      if b.LI? && n > 0 && s.stack[n - 1].block.OL? {
        assert d < n - 1;
        assert NextNumber(p)[..d + 1] == p[..d + 1];
      } else if b.LI? && n > 0 {
        assert NextNumber(p) == p;
      }
    case LeaveBlockEvent(t) =>
      LeaveBlockEffect(s, t);
    case EnterSpanEvent(t) =>
      EnterSpanEffect(s, t);
    case LeaveSpanEvent(t) =>
      LeaveSpanEffect(s, t);
    case TextEvent(t, text) =>
      TextEffect(s, t, text);
  }

  /** So a run that stays inside the frame at index d keeps every frame up
      to d, never sets the flag again and only appends to the output. */
  lemma {:induction false} RunKeepsPrefix(s: State, evs: seq<Event>, d: nat)
    requires d < |s.stack| && !s.stack[d].block.OL? && Inside(s, evs, d)
    ensures var r := Run(s, evs);
      && d < |r.stack| && r.stack[..d + 1] == s.stack[..d + 1]
      && (!s.first ==> !r.first)
      && s.out <= r.out
    decreases |evs|
  {
    if evs != [] {
      var r := Step(s, evs[0]).s;
      StepKeepsPrefix(s, evs[0], d);
      assert r.stack[d] == r.stack[..d + 1][d];
      RunKeepsPrefix(r, evs[1..], d);
    }
  }

  // ---------------------------------------------------------------------
  // Ordered-list numbering

  /** One list item: its enter event, the events of its content, and its
      leave event. */
  function Item(s: State, body: seq<Event>): State {
    LeaveBlock(Run(EnterBlock(s, LI).s, body), LIType).s
  }

  /** The content of an item is well nested: every event of it succeeds,
      none closes the item, and at the end exactly the item is open. */
  predicate ItemOk(s: State, body: seq<Event>) {
    && s.stack != []
    && Inside(EnterBlock(s, LI).s, body, |s.stack|)
    && |Run(EnterBlock(s, LI).s, body).stack| == |s.stack| + 1
  }

  /** The content leaves the item's frame on top and the stack as it was
      when the item was entered. */
  lemma ItemContentStack(s: State, body: seq<Event>)
    requires ItemOk(s, body) && !s.first
    ensures var r1 := EnterBlock(s, LI).s;
      var r2 := Run(r1, body);
      && |r1.stack| == |s.stack| + 1
      && r2.stack == r1.stack && !r2.first && r1.out <= r2.out
  {
    var r1 := EnterBlock(s, LI).s;
    EnterItemBytes(s);
    EnterBlockResult(s, LI);
    RunKeepsPrefix(r1, body, |s.stack|);
    var r2 := Run(r1, body);
    assert r2.stack == r2.stack[..|s.stack| + 1];
    assert r1.stack == r1.stack[..|s.stack| + 1];
  }

  /** One item of an ordered list, whatever its content, advances the
      list's counter by one and leaves the rest of the stack as it was. */
  lemma ItemStack(s: State, body: seq<Event>)
    requires ItemOk(s, body) && Top(s.stack).block.OL? && !s.first
    ensures var s' := Item(s, body);
      && s'.stack == s.stack[|s.stack| - 1 := Renumbered(Top(s.stack), 1)]
      && !s'.first
  {
    var n := |s.stack|;
    var r1 := EnterBlock(s, LI).s;
    var r2 := Run(r1, body);
    ItemContentStack(s, body);
    EnterOrderedItemStack(s);
    LeaveInnermost(r2, LIType, r1.stack[..n]);
    LeaveItemBytes(r2);
  }

  /** Entering an item of an ordered list pushes its frame on top of the
      stack with the list's counter advanced by one. */
  lemma EnterOrderedItemStack(s: State)
    requires s.stack != [] && Top(s.stack).block.OL?
    ensures var n := |s.stack|;
      var r := EnterBlock(s, LI).s;
      |r.stack| == n + 1 && r.stack[..n] == s.stack[n - 1 := Renumbered(Top(s.stack), 1)]
  {
    var n := |s.stack|;
    EnterBlockStack(s, LI);
    var p := s.stack + [NewFrame(s.stack, LI)];
    assert NextNumber(p)[..n] == s.stack[n - 1 := Renumbered(Top(s.stack), 1)];
  }

  /** One item writes its head (with the number before the advance), then
      whatever its content writes, then a carriage return. */
  lemma ItemOutput(s: State, body: seq<Event>)
    requires ItemOk(s, body) && !s.first
    ensures var r1 := EnterBlock(s, LI).s;
      var r2 := Run(r1, body);
      && r1.out == s.out + ItemHead(Top(s.stack))
      && r1.out <= r2.out
      && Item(s, body).out == r2.out + [CR]
  {
    var r1 := EnterBlock(s, LI).s;
    EnterItemBytes(s);
    ItemContentStack(s, body);
    LeaveItemBytes(Run(r1, body));
  }

  /** The state after the items of a list, the content of each given by
      bodies. */
  function Items(s: State, bodies: seq<seq<Event>>): State
    decreases |bodies|
  {
    if bodies == [] then s
    else Item(Items(s, bodies[..|bodies| - 1]), bodies[|bodies| - 1])
  }

  /** Every item's content is well nested. */
  predicate ItemsOk(s: State, bodies: seq<seq<Event>>)
    decreases |bodies|
  {
    bodies == [] ||
    (ItemsOk(s, bodies[..|bodies| - 1]) && ItemOk(Items(s, bodies[..|bodies| - 1]), bodies[|bodies| - 1]))
  }

  lemma {:induction false} ItemsOkPrefix(s: State, bodies: seq<seq<Event>>, k: nat)
    requires ItemsOk(s, bodies) && k <= |bodies|
    ensures ItemsOk(s, bodies[..k])
    decreases |bodies|
  {
    if k < |bodies| {
      var p := bodies[..|bodies| - 1];
      ItemsOkPrefix(s, p, k);
      assert p[..k] == bodies[..k];
    } else {
      assert bodies[..k] == bodies;
    }
  }

  /** In an ordered list declared with start value s0, the list's counter
      is s0 + n after n items, whatever they contain; the frames around it
      stay as they were. */
  lemma {:induction false} OrderedListNumbering(s: State, bodies: seq<seq<Event>>)
    requires s.stack != [] && Top(s.stack).block.OL? && !s.first && ItemsOk(s, bodies)
    ensures var t := Items(s, bodies);
      t.stack == s.stack[|s.stack| - 1 := Renumbered(Top(s.stack), |bodies|)] && !t.first
    decreases |bodies|
  {
    var e := Top(s.stack);
    if bodies == [] {
      assert Renumbered(e, 0) == e;
      assert s.stack[|s.stack| - 1 := e] == s.stack;
    } else {
      var n := |bodies|;
      OrderedListNumbering(s, bodies[..n - 1]);
      NumberingStep(Items(s, bodies[..n - 1]), s.stack, n, bodies[n - 1]);
    }
  }

  /** One more item advances the counter by one more. */
  lemma NumberingStep(t: State, stack: seq<Frame>, k: nat, body: seq<Event>)
    requires stack != [] && Top(stack).block.OL? && !t.first && k > 0
    requires t.stack == stack[|stack| - 1 := Renumbered(Top(stack), k - 1)]
    requires ItemOk(t, body)
    ensures var u := Item(t, body);
      u.stack == stack[|stack| - 1 := Renumbered(Top(stack), k)] && !u.first
  {
    ItemStack(t, body);
    RenumberedAdds(Top(stack), k - 1, 1);
    assert t.stack[|stack| - 1 := Renumbered(Top(stack), k)] ==
           stack[|stack| - 1 := Renumbered(Top(stack), k)];
  }

  /** So item k of the list (counting from 0) writes the marker of number
      s0 + k, then its content, then a carriage return. */
  lemma OrderedListItems(s: State, bodies: seq<seq<Event>>, k: nat)
    requires s.stack != [] && Top(s.stack).block.OL? && !s.first && ItemsOk(s, bodies)
    requires k < |bodies|
    ensures var t := Items(s, bodies[..k]);
      var r1 := EnterBlock(t, LI).s;
      var r2 := Run(r1, bodies[k]);
      && r1.out == t.out + ItemHead(Renumbered(Top(s.stack), k))
      && r1.out <= r2.out
      && Items(s, bodies[..k + 1]).out == r2.out + [CR]
  {
    ItemsLast(s, bodies, k);
    OrderedListNumbering(s, bodies[..k]);
    ItemOutput(Items(s, bodies[..k]), bodies[k]);
  }

  /** The first k + 1 items are the first k followed by item k. */
  lemma ItemsLast(s: State, bodies: seq<seq<Event>>, k: nat)
    requires ItemsOk(s, bodies) && k < |bodies|
    ensures ItemsOk(s, bodies[..k])
    ensures ItemOk(Items(s, bodies[..k]), bodies[k])
    ensures Items(s, bodies[..k + 1]) == Item(Items(s, bodies[..k]), bodies[k])
  {
    ItemsOkPrefix(s, bodies, k + 1);
    TakeLast(bodies, k);
    ItemsUnfold(s, bodies[..k + 1]);
  }

  lemma ItemsUnfold(s: State, q: seq<seq<Event>>)
    requires q != [] && ItemsOk(s, q)
    ensures ItemsOk(s, q[..|q| - 1]) && ItemOk(Items(s, q[..|q| - 1]), q[|q| - 1])
    ensures Items(s, q) == Item(Items(s, q[..|q| - 1]), q[|q| - 1])
  {
  }

  lemma TakeLast<T>(a: seq<T>, k: nat)
    requires k < |a|
    ensures |a[..k + 1]| == k + 1
    ensures a[..k + 1][..k] == a[..k] && a[..k + 1][k] == a[k]
  {
  }

  /** A run whose first event succeeds goes on with the rest. */
  lemma RunFirst(s: State, evs: seq<Event>, d: nat)
    requires evs != [] && Allowed(s, evs[0]) && Step(s, evs[0]).rc == 0
    ensures Run(s, evs) == Run(Step(s, evs[0]).s, evs[1..])
    ensures |Step(s, evs[0]).s.stack| > d && Inside(Step(s, evs[0]).s, evs[1..], d) ==> Inside(s, evs, d)
  {
  }

  /** The content of a typical item, one paragraph of text, is well
      nested. */
  lemma ParagraphItemOk(s: State, text: seq<byte>)
    requires s.stack != [] && !s.first
    ensures ItemOk(s, [EnterBlockEvent(P), TextEvent(Normal, text), LeaveBlockEvent(PType)])
  {
    var body := [EnterBlockEvent(P), TextEvent(Normal, text), LeaveBlockEvent(PType)];
    var n := |s.stack|;
    var r1 := EnterBlock(s, LI).s;
    EnterItemBytes(s);
    var r2, r3, r4 := ParagraphSteps(r1, text);
    RunFirst(r3, body[2..], n);
    RunFirst(r2, body[1..], n);
    RunFirst(r1, body, n);
  }

  /** The states after each event of a paragraph inside an open frame. */
  lemma ParagraphSteps(r1: State, text: seq<byte>) returns (r2: State, r3: State, r4: State)
    requires r1.stack != []
    ensures Step(r1, EnterBlockEvent(P)) == Outcome(r2, 0) && |r2.stack| == |r1.stack| + 1
    ensures Step(r2, TextEvent(Normal, text)) == Outcome(r3, 0) && |r3.stack| == |r1.stack| + 1
    ensures Step(r3, LeaveBlockEvent(PType)) == Outcome(r4, 0) && r4.stack == r1.stack
    ensures Run(r4, []) == r4 && Inside(r4, [], |r1.stack| - 1)
  {
    EnterBlockResult(r1, P);
    EnterBlockFrame(r1, P);
    r2 := EnterBlock(r1, P).s;
    TextEffect(r2, Normal, text);
    r3 := Text(r2, Normal, text).s;
    LeaveInnermost(r3, PType, r1.stack);
    r4 := LeaveBlock(r3, PType).s;
  }

  /** The items of a list whose every item is one paragraph of text. */
  function ParagraphItems(texts: seq<seq<byte>>): (bodies: seq<seq<Event>>)
    ensures |bodies| == |texts|
  {
    seq(|texts|, i requires 0 <= i < |texts| =>
      [EnterBlockEvent(P), TextEvent(Normal, texts[i]), LeaveBlockEvent(PType)])
  }

  /** So an ordered list of paragraph items meets the hypothesis of
      OrderedListNumbering and OrderedListItems. */
  lemma {:induction false} ParagraphListOk(s: State, texts: seq<seq<byte>>)
    requires s.stack != [] && Top(s.stack).block.OL? && !s.first
    ensures ItemsOk(s, ParagraphItems(texts))
    decreases |texts|
  {
    if texts != [] {
      var n := |texts|;
      var bodies := ParagraphItems(texts);
      var pre := ParagraphItems(texts[..n - 1]);
      assert bodies[..n - 1] == pre;
      ParagraphListOk(s, texts[..n - 1]);
      OrderedListNumbering(s, pre);
      ParagraphItemOk(Items(s, pre), texts[n - 1]);
    }
  }
}
