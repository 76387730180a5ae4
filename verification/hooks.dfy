/** The translator as the program runs it: the parser's callbacks update
    the stack of open blocks, the style mask and the first-block flag in
    place, and write through the buffered output writer. Each hook is
    proved to do what the matching function of the Translation module
    says. */
module Hooks {
  import opened Bytes
  import opened Wrappers
  import opened Entities
  import opened OutputWriter
  import opened Translation

  /** strlen: the bytes before the first NUL. */
  function StrLen(s: seq<byte>): (n: nat)
    ensures n <= |s|
    ensures forall i :: 0 <= i < n ==> s[i] != NUL
    ensures n < |s| ==> s[n] == NUL
  {
    if s == [] || s[0] == NUL then 0 else 1 + StrLen(s[1..])
  }

  /** strlen skips a prefix without NUL bytes. */
  lemma {:induction false} StrLenAppend(a: seq<byte>, rest: seq<byte>)
    requires forall i :: 0 <= i < |a| ==> a[i] != NUL
    ensures StrLen(a + rest) == |a| + StrLen(rest)
  {
    if a != [] {
      assert (a + rest)[1..] == a[1..] + rest;
      StrLenAppend(a[1..], rest);
    } else {
      assert a + rest == rest;
    }
  }

  /** The text sprintf("%u%c ", start, delimiter) leaves in the buffer,
      read back with strlen, is the list marker: the digits alone when the
      delimiter is NUL. */
  lemma OrderedMarkerLength(start: nat, d: byte)
    ensures var str := Decimal(start) + [d, SPACE];
      str[..StrLen(str)] == if d == NUL then Decimal(start) else str
  {
    var digits := Decimal(start);
    forall i | 0 <= i < |digits|
      ensures digits[i] != NUL
    {
      assert IsDigit(digits[i], 10);
    }
    StrLenAppend(digits, [d, SPACE]);
    var str := digits + [d, SPACE];
    if d == NUL {
      assert str[..|digits|] == digits;
    }
  }

  /** Two writes with a stack update between them are one write after
      the update. */
  lemma WriteAcrossRestack(s: State, a: seq<byte>, stack: seq<Frame>, b: seq<byte>)
    ensures Write(Write(s, a).(stack := stack), b) == Write(s.(stack := stack), a + b)
  {
  }

  /** The header case of enterBlockHook returns to plain text, on a new
      line unless nothing has been written yet. */
  ghost function HeaderPrelude(s: State, b: Block): State {
    if b.H? then Write(Translation.SetStyle(s, TextStyle, s.mask, Size(0)), if s.first then [] else [CR])
    else s
  }

  /** What a list item or a rule writes once its style is set (s.stack
      already holds the item's frame). */
  ghost function Content(s: State, b: Block, numTabs: nat): State
    requires b.LI? ==> |s.stack| >= 2
  {
    if b.LI? then Write(s.(stack := NextNumber(s.stack)), Repeat(TAB, numTabs) + ListMarker(s.stack[|s.stack| - 2]))
    else if b.HR? then Write(s, Repeat(UNDERSCORE, RULE_LENGTH))
    else s
  }

  /** enterBlockHook in the order the class performs it: push, style,
      content, flag. */
  lemma EnterBlockSteps(s: State, b: Block)
    requires !((b.LI? && s.stack == []) || b.OtherBlock?)
    ensures var frame := NewFrame(s.stack, b);
      var pushed := s.(stack := s.stack + [frame]);
      var styled := Write(Translation.SetStyle(HeaderPrelude(pushed, b), frame.style, s.mask, Size(if b.H? then b.level else 0)),
                          if !s.first && ShouldInsertCR(s.stack, b) then [CR] else []);
      EnterBlock(s, b) == Outcome(Content(styled, b, frame.numTabs).(first := s.first && b.Doc?), 0)
  {
  }

  class Translator {
    /** The open blocks (blockList), innermost last. */
    var stack: seq<Frame>
    /** textStyleMask. */
    var mask: bv16
    /** isFirstNonDocumentBlock. */
    var first: bool
    /** The calls of setStyle so far. */
    var styleLog: seq<StyleCall>
    /** The output file. */
    const out: Writer

    ghost predicate Valid()
      reads this, out, out.buffer
    {
      out.Valid()
    }

    /** The state as the Translation module sees it. */
    ghost function Abs(): State
      reads this, out
    {
      State(stack, mask, first, out.written, styleLog)
    }

    constructor ()
      ensures Valid() && Abs() == INITIAL
      ensures fresh(out) && fresh(out.buffer)
    {
      stack := [];
      mask := STYLE_TEXT_PLAIN;
      first := true;
      styleLog := [];
      out := new Writer();
    }

    /** setStyle, recorded with the output position at the time. */
    method SetStyle(style: StyleType, m: bv16, size: HeaderSize)
      requires Valid()
      modifies this
      ensures Valid()
      ensures Abs() == Translation.SetStyle(old(Abs()), style, m, size)
    {
      var p := out.OutputPos();
      styleLog := styleLog + [StyleCall(style, m, size, p)];
    }

    method WriteChar(ch: byte)
      requires Valid()
      modifies out, out.buffer
      ensures Valid()
      ensures Abs() == Write(old(Abs()), [ch])
    {
      out.WriteChar(ch);
    }

    method WriteString(s: seq<byte>)
      requires Valid()
      modifies out, out.buffer
      ensures Valid()
      ensures Abs() == Write(old(Abs()), s)
    {
      out.WriteString(s);
    }

    /** The loops that write n copies of a byte (tabs, rule). */
    method WriteRepeated(b: byte, n: nat)
      requires Valid()
      modifies out, out.buffer
      ensures Valid()
      ensures Abs() == Write(old(Abs()), Repeat(b, n))
    {
      var i := 0;
      while i < n
        invariant 0 <= i <= n
        invariant Valid()
        invariant Abs() == Write(old(Abs()), Repeat(b, i))
      {
        out.WriteChar(b);
        i := i + 1;
      }
    }

    /** The switch of enterBlockHook that fills in the pushed frame: its
        tab depth and style type, whether a carriage return may precede
        the block and the header size of its style. */
    method FrameFor(b: Block) returns (frame: Frame, shouldInsertCR: bool, headerSize: nat)
      ensures frame == NewFrame(stack, b)
      ensures shouldInsertCR == ShouldInsertCR(stack, b)
      ensures headerSize == if b.H? then b.level else 0
    {
      frame :=
        if stack == [] then Frame(b, 0, TextStyle)
        else Frame(b, Top(stack).numTabs,
                   if Top(stack).style == QuoteStyle then QuoteStyle else TextStyle);
      shouldInsertCR := true;
      headerSize := 0;
      match b {
        case Doc =>
          frame := frame.(style := TextStyle);
          shouldInsertCR := false;
        case Quote =>
          frame := frame.(style := QuoteStyle);
          shouldInsertCR := false;
        case UL(_, _) =>
          frame := frame.(numTabs := frame.numTabs + 1);
        case OL(_, _, _) =>
          frame := frame.(numTabs := frame.numTabs + 1);
        case LI =>
          if stack != [] {
            match Top(stack).block {
              case OL(_, tight, _) => shouldInsertCR := !tight;
              case UL(tight, _) => shouldInsertCR := !tight;
              case _ =>
            }
          }
        case HR =>
        case H(level) =>
          headerSize := level;
          shouldInsertCR := false;
          frame := frame.(style := HeaderStyle);
        case Code(_) =>
          frame := frame.(style := CodeStyle);
        case P =>
        case OtherBlock(_) =>
      }
    }

    /** The number and delimiter of the enclosing ordered list, printed
        with sprintf and written up to strlen; the list's next item takes
        the next number. */
    method WriteOrderedMarker()
      requires Valid() && |stack| >= 2 && stack[|stack| - 2].block.OL?
      modifies this, out, out.buffer
      ensures Valid()
      ensures Abs() == Write(old(Abs()).(stack := NextNumber(old(stack))),
                             ListMarker(old(stack)[|old(stack)| - 2]))
    {
      var parent := stack[|stack| - 2];
      var start, tight, d := parent.block.start, parent.block.isTight, parent.block.delimiter;
      var str := Decimal(start) + [d, SPACE];
      OrderedMarkerLength(start, d);
      WriteString(str[..StrLen(str)]);
      stack := stack[|stack| - 2 := parent.(block := OL(start + 1, tight, d))];
    }

    /** The bullet of an item outside an ordered list. */
    method WriteBullet()
      requires Valid() && |stack| >= 2 && !stack[|stack| - 2].block.OL?
      modifies out, out.buffer
      ensures Valid()
      ensures Abs() == Write(old(Abs()).(stack := NextNumber(old(stack))),
                             ListMarker(old(stack)[|old(stack)| - 2]))
    {
      WriteString([BULLET, SPACE]);
    }

    /** The marker of a list item: its tabs, then the number of its
        ordered list or the bullet. */
    method WriteItemMarker(numTabs: nat)
      requires Valid() && |stack| >= 2
      modifies this, out, out.buffer
      ensures Valid()
      ensures Abs() == Write(old(Abs()).(stack := NextNumber(old(stack))),
                             Repeat(TAB, numTabs) + ListMarker(old(stack)[|old(stack)| - 2]))
    {
      ghost var s := Abs();
      WriteRepeated(TAB, numTabs);
      ghost var s1 := Abs();
      if stack[|stack| - 2].block.OL? {
        WriteOrderedMarker();
      } else {
        WriteBullet();
      }
      WriteAcrossRestack(s, Repeat(TAB, numTabs), NextNumber(s.stack), ListMarker(s.stack[|s.stack| - 2]));
    }

    /** The style changes and carriage returns that open a block: a
        header first returns to plain text (on a new line unless it is the
        first block), then the block's own style is set and, where the
        block asks for one, a carriage return separates it from what came
        before. */
    method EnterStyle(b: Block, style: StyleType, headerSize: nat, insertCR: bool)
      requires Valid()
      modifies this, out, out.buffer
      ensures Valid()
      ensures Abs() == Write(Translation.SetStyle(HeaderPrelude(old(Abs()), b), style, old(mask), Size(headerSize)),
                             if !old(first) && insertCR then [CR] else [])
    {
      if b.H? {
        SetStyle(TextStyle, mask, Size(0));
        if !first {
          WriteChar(CR);
        }
      }
      SetStyle(style, mask, Size(headerSize));
      if !first && insertCR {
        WriteChar(CR);
      }
    }

    /** What a list item or a rule writes once its style is set. */
    method EnterContent(b: Block, numTabs: nat)
      requires Valid() && (b.LI? ==> |stack| >= 2)
      modifies this, out, out.buffer
      ensures Valid()
      ensures Abs() == Content(old(Abs()), b, numTabs)
    {
      if b.LI? {
        WriteItemMarker(numTabs);
      } else if b.HR? {
        WriteRepeated(UNDERSCORE, RULE_LENGTH);
      }
    }

    /** enterBlockHook. The frame is pushed before anything can fail. */
    method EnterBlockHook(b: Block) returns (rc: nat)
      requires Valid()
      modifies this, out, out.buffer
      ensures Valid()
      ensures Outcome(Abs(), rc) == EnterBlock(old(Abs()), b)
    {
      var enclosing := stack;
      var frame, shouldInsertCR, headerSize := FrameFor(b);
      stack := enclosing + [frame];
      if (b.LI? && enclosing == []) || b.OtherBlock? {
        return 1;
      }
      EnterBlockSteps(old(Abs()), b);
      EnterStyle(b, frame.style, headerSize, shouldInsertCR);
      EnterContent(b, frame.numTabs);
      if !b.Doc? {
        first := false;
      }
      return 0;
    }

    /** leaveBlockHook. */
    method LeaveBlockHook(t: BlockType) returns (rc: nat)
      requires Valid()
      modifies this, out, out.buffer
      ensures Valid()
      ensures Outcome(Abs(), rc) == LeaveBlock(old(Abs()), t)
    {
      if stack == [] {
        return 1;
      }
      if Top(stack).block.Type() != t {
        return 1;
      }
      stack := stack[..|stack| - 1];
      if t.OtherBlockType? {
        return 1;
      }
      LeaveBytes(t);
      if stack != [] {
        SetStyle(Top(stack).style, mask, Size(0));
      }
      return 0;
    }

    /** The per-type part of leaving a block: a header returns to the
        enclosing frame's style, and list items, rules, paragraphs and
        headers end with a carriage return. */
    method LeaveBytes(t: BlockType)
      requires Valid() && !t.OtherBlockType?
      modifies this, out, out.buffer
      ensures Valid()
      ensures Abs() == Write(if t == HType && old(stack) != [] then Translation.SetStyle(old(Abs()), Top(old(stack)).style, old(mask), Size(0))
                             else old(Abs()),
                             if WritesTrailingCR(t) then [CR] else [])
    {
      match t {
        case DocType =>
        case QuoteType =>
        case ULType =>
        case OLType =>
        case LIType =>
          WriteChar(CR);
        case HRType =>
          WriteChar(CR);
        case HType =>
          if stack != [] {
            SetStyle(Top(stack).style, mask, Size(0));
          }
          WriteChar(CR);
        case CodeType =>
        case PType =>
          WriteChar(CR);
      }
    }

    /** The header size the span hooks pass on. */
    function HeaderLevel(): HeaderSize
      requires stack != []
      reads this
    {
      SpanSize(stack)
    }

    /** enterSpanHook. */
    method EnterSpanHook(t: SpanType) returns (rc: nat)
      requires Valid()
      requires (t.Em? || t.Strong?) ==> stack != []
      modifies this
      ensures Valid()
      ensures Outcome(Abs(), rc) == EnterSpan(old(Abs()), t)
    {
      match t {
        case Em =>
          mask := mask | STYLE_TEXT_MASK_EMPHASIZED;
          SetStyle(Top(stack).style, mask, HeaderLevel());
        case Strong =>
          mask := mask | STYLE_TEXT_MASK_STRONG;
          SetStyle(Top(stack).style, mask, HeaderLevel());
        case Link =>
        case Img =>
        case CodeSpan =>
          SetStyle(CodeStyle, STYLE_TEXT_PLAIN, Size(0));
        case OtherSpan(_) =>
          return 1;
      }
      return 0;
    }

    /** leaveSpanHook. */
    method LeaveSpanHook(t: SpanType) returns (rc: nat)
      requires Valid()
      requires ReadsFrame(t) ==> stack != []
      modifies this
      ensures Valid()
      ensures Outcome(Abs(), rc) == LeaveSpan(old(Abs()), t)
    {
      match t {
        case Em =>
          mask := Without(mask, STYLE_TEXT_MASK_EMPHASIZED);
          SetStyle(Top(stack).style, mask, HeaderLevel());
        case Strong =>
          mask := Without(mask, STYLE_TEXT_MASK_STRONG);
          SetStyle(Top(stack).style, mask, HeaderLevel());
        case Link =>
        case Img =>
        case CodeSpan =>
          SetStyle(Top(stack).style, mask, HeaderLevel());
        case OtherSpan(_) =>
          return 1;
      }
      return 0;
    }

    /** printEntity: the numeric paths, then a scan of the table for the
        first row whose code point or name matches. */
    method PrintEntity(text: seq<byte>)
      requires Valid()
      modifies out, out.buffer
      ensures Valid()
      ensures Abs() == Write(old(Abs()), EntityBytes(text))
    {
      if |text| < 4 {
        return;
      }
      if text[0] != AMP {
        return;
      }
      if text[|text| - 1] != SEMI {
        return;
      }
      var unicodeChar := 0;
      if text[1] == HASH {
        unicodeChar := NumericCode(text, 10);
        if 0 < unicodeChar < 128 {
          WriteChar(unicodeChar);
          return;
        }
      }
      if text[1] == LOWER_X {
        unicodeChar := NumericCode(text, 16);
        if 0 < unicodeChar < 128 {
          WriteChar(unicodeChar);
          return;
        }
      }
      assert Resolve(text) == Lookup(ENTITIES, text, unicodeChar, 0);
      var entityNum := 0;
      while entityNum < |ENTITIES|
        invariant 0 <= entityNum <= |ENTITIES|
        invariant Lookup(ENTITIES, text, unicodeChar, entityNum) == Resolve(text)
        invariant Abs() == old(Abs())
      {
        var e := ENTITIES[entityNum];
        if unicodeChar == e.codePoint || StrnEq(e.name, text) {
          WriteChar(e.output);
          return;
        }
        entityNum := entityNum + 1;
      }
    }

    /** textHook. */
    method TextHook(t: TextType, text: seq<byte>) returns (rc: nat)
      requires Valid()
      modifies out, out.buffer
      ensures Valid()
      ensures Outcome(Abs(), rc) == Text(old(Abs()), t, text)
    {
      var data := text;
      match t {
        case Normal =>
        case NullChar =>
          return 1;
        case Br =>
          WriteChar(LF);
          return 0;
        case SoftBr =>
          return 0;
        case EntityText =>
          PrintEntity(text);
          data := [];
        case CodeText =>
        case OtherText(_) =>
          return 1;
      }
      if |data| > 0 {
        WriteString(data);
      }
      return 0;
    }
  }
}
