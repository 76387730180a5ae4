# md2teach translator core in Dafny

md2teach converts a Markdown file into an Apple IIgs Teach document. The
md4c parser reports what it finds to five callbacks, and those callbacks do
the translation:

- `enterBlockHook` and `leaveBlockHook` open and close blocks: the document,
  a quote, a list, a list item, a header, a rule, a code block or a paragraph;
- `enterSpanHook` and `leaveSpanHook` open and close inline spans;
- `textHook` receives the text itself.

The translator keeps three pieces of state:

- `blockList`, the stack of open blocks, with the tab depth and style type of each;
- `textStyleMask`, the bold and italic bits in force;
- `isFirstNonDocumentBlock`, which suppresses the carriage return before the first block.

The translator writes bytes through a buffered output writer. The writer
turns line feeds into carriage returns, collects bytes in a 4096-byte buffer
and hands a full buffer to the file system in one write request. Style
changes go to `setStyle`, which records the output position where each new
style starts.

The model has six modules:

- `Bytes`: bytes, the line-ending rewrite, `%u` rendering and digit runs.
- `Wrappers`: `Option`.
- `Entities`: the 221-row entity table and `printEntity`'s resolution of a
  `&...;` token. This covers strtoul, strncmp bounded by the token size, and
  the scan for the first matching row.
- `OutputWriter`: the `Writer` class, the buffered writer of `io.c`. Its
  buffer is an `array`, and it has the write-request log and the flush.
- `Translation`: each hook as a function on a value of the translator's
  whole state (stack, mask, flag, bytes written, log of style changes).
  `TranslationFacts` proves what each event does and what it preserves:
  - tab depth is the number of enclosing lists, over any run of events;
  - the style log is ordered by output position;
  - an ordered list numbers its items consecutively, whatever the items
    contain;
  - each span's bit is set and cleared.

  The lemmas on what each kind of entity token resolves to are in
  `Entities`.
- `Hooks`: the `Translator` class with the mutable `blockList`, mask, flag
  and an output `Writer`. Each hook is an imperative method proved equal to
  the function in `Translation`.

## Model

| member | source | states |
|---|---|---|
| Bytes.NormalizeByte | md2teach/io.c:94-95 | a line feed is stored as a carriage return; no stored byte is a line feed, and every other byte is kept |
| Bytes.Normalize | md2teach/io.c:94-95 | the stored stream has the same length as what was written; each line feed becomes a carriage return and every other byte is kept |
| Bytes.NormalizeAppend | md2teach/io.c:89-99 | rewriting byte by byte and rewriting the whole stream give the same output |
| Bytes.NormalizeFixesLineFeedFree | md2teach/io.c:94-95 | no line feed reaches the file; a stream without line feeds is stored unchanged; the rewrite is idempotent |
| Bytes.Decimal | md2teach/translate.c:440 | `%u` produces at least one decimal digit and no leading zero |
| Bytes.DecimalRoundTrip | md2teach/translate.c:440 | reading back the digits `%u` printed gives the number |
| Bytes.DecimalRun | md2teach/translate.c:646-647 | a digit scan over a printed number followed by a non-digit stops right after the number |
| Bytes.DigitRun | md2teach/translate.c:646 | strtoul's end pointer: the longest prefix of digits, with a non-digit or the end right after it |
| Entities.StrToUL | md2teach/translate.c:646 | strtoul consumes a run of digits followed by the end of the text or a non-digit; the value is within ULONG_MAX, and 0 when nothing is consumed |
| Entities.StrToULReads | md2teach/translate.c:646 | on digits d followed by the end or a non-digit, strtoul consumes exactly d and returns d's value, saturated at ULONG_MAX |
| Entities.StrnEqFromCovers | md2teach/translate.c:670 | from any position, strncmp's test holds exactly when the rest of the token is matched by the name |
| Entities.StrnEqIsPrefix | md2teach/translate.c:670 | strncmp bounded by the token size matches a name exactly when the token is a prefix of that name |
| Entities.StrnEqFrom | md2teach/translate.c:670 | strncmp bounded by the token size, compared from position i; characterised by StrnEqFromCovers and StrnEqIsPrefix (no contract of its own) |
| Entities.StrnEqFromAgrees | md2teach/translate.c:670 | (proof helper) a match that reaches a position inside the token agrees with the name byte by byte from there to the end of the token |
| Entities.Matches | md2teach/translate.c:669-670 | the row test: same code point, or the token is a strncmp-prefix of the row's name; used by LookupFirstMatch, HexReference and MissRow (no contract of its own) |
| Entities.Lookup | md2teach/translate.c:668-674 | the table scan from row i; characterised by LookupFirstMatch, LookupAppend and LookupShift (no contract of its own) |
| Entities.LookupFirstMatch | md2teach/translate.c:668-674 | the scan finds a byte exactly when some row matches, and the byte it finds comes from the first matching row |
| Entities.Resolve | md2teach/translate.c:630-675 | a byte is produced only for a token of at least four bytes that starts with `&` and ends with `;` |
| Entities.NumericCode | md2teach/translate.c:646-648 | a numeric code is within ULONG_MAX |
| Entities.NumericCodeValue | md2teach/translate.c:644-660 | the code of a token ending in a non-digit is the saturated value of the bytes between the second and the last when they are all digits, and 0 when any of them is not |
| Entities.TableRowsOk | md2teach/translate.c:71-293 | the table has 221 rows; every code point is between 9 and 0xFB02; every name is empty or starts with `&` followed by something other than `#` |
| Entities.LookupAppend | md2teach/translate.c:668-674 | scanning a table split in two scans the second part only when the first part has no match |
| Entities.LookupShift | md2teach/translate.c:668 | scanning the second part of a table from row j is the same as scanning it on its own |
| Entities.MissRow | md2teach/translate.c:669-670 | (proof helper) a row whose code point differs and whose name differs from the token at some position is skipped by the scan |
| Entities.FirstWithCodePoint | md2teach/translate.c:669 | a scan by code point alone finds a byte exactly when some row has that code point |
| Entities.HashTokenMatchesNoName | md2teach/translate.c:670 | a token starting `&#` is a prefix of no name in the table |
| Entities.HashTokenLookup | md2teach/translate.c:668-674 | a token starting `&#` is looked up by code point only |
| Entities.UnknownCodePoint | md2teach/translate.c:668-674 | a code point below 9 or above 0xFB02 is in no row |
| Entities.HashReference | md2teach/translate.c:644-674 | a `&#` token with code 1..127 writes that byte; any other code is the first row with that code point |
| Entities.DecimalCode | md2teach/translate.c:644-648 | for `&#N;` strtoul reads back N, saturated at ULONG_MAX |
| Entities.DecimalReference | md2teach/translate.c:644-674 | `&#N;` writes byte N when 1 <= N < 128; otherwise it writes the byte of the first row with code point N; N = 0 or N > 0xFB02 writes nothing |
| Entities.HexReference | md2teach/translate.c:656-674 | a `&x` token's code is the saturated hexadecimal value of the bytes before the `;`, or 0 when any of them is not a hexadecimal digit; a code 1..127 writes that byte; any other code writes a byte exactly when some row matches it by code point or by name, and the byte comes from the first such row |
| Entities.HexReferenceUnresolved | md2teach/translate.c:644-674 | `&#x...;` never writes anything, whatever its digits |
| Entities.NamedReference | md2teach/translate.c:668-674 | a named token writes a byte exactly when it is a strncmp-prefix of some name, and the byte comes from the first such row |
| Entities.NamedLookup | md2teach/translate.c:668-674 | a named token resolves to the first row whose name it strncmp-prefixes (FirstWithName): no row has code point 0, so only names can match |
| Entities.NamedScan | md2teach/translate.c:656-674 | (proof helper) a named token goes to the scan with code 0 |
| Entities.FirstWithName | md2teach/translate.c:670 | a scan by name alone finds a byte exactly when some row's name the token strncmp-prefixes |
| Entities.NameOnlyLookup | md2teach/translate.c:668-674 | over valid rows, the scan with code 0 is the scan by name alone |
| Entities.FirstBlocksLookup | md2teach/translate.c:72-135 | scanning the first 64 rows is scanning each group of 16 rows in turn |
| Entities.FoundInFirstBlocks | md2teach/translate.c:668-674 | a match in the first 64 rows stops the scan there |
| Entities.ResolveDecimalA | md2teach/translate.c:644-653 | `&#65;` writes `A` |
| Entities.ResolveHexA | md2teach/translate.c:644-674 | `&#x41;` writes nothing |
| Entities.AmpInBlock0 | md2teach/translate.c:80 | the first 16 rows resolve `&amp;` to 0x26 |
| Entities.ResolveAmp | md2teach/translate.c:80 | `&amp;` writes `&` |
| Entities.NewLineInBlock0 | md2teach/translate.c:73 | the first 16 rows resolve `&NewLine;` to 0x13 |
| Entities.NewLineInTable | md2teach/translate.c:72-293 | (proof helper) the whole table resolves `&NewLine;` to 0x13, at its row in the first 16 |
| Entities.ResolveNewLine | md2teach/translate.c:73 | `&NewLine;` writes 0x13, which is the table's value and not a line feed |
| Entities.CodePoint169Absent | md2teach/translate.c:72-119 | code point 169 is not in the first 48 rows |
| Entities.CodePoint169InBlock3 | md2teach/translate.c:120-135 | rows 48-63 map code point 169 to 0xA9 |
| Entities.ResolveCopyDecimal | md2teach/translate.c:127 | `&#169;` writes 0xA9, the byte of `&copy;` |
| Entities.CopySkips0a | md2teach/translate.c:72-79 | (proof helper) `&copy;` matches none of rows 0-7 |
| Entities.CopySkips0b | md2teach/translate.c:80-87 | (proof helper) `&copy;` matches none of rows 8-15 |
| Entities.CopySkips1a | md2teach/translate.c:88-95 | (proof helper) `&copy;` matches none of rows 16-23 |
| Entities.CopySkips1b | md2teach/translate.c:96-103 | (proof helper) `&copy;` matches none of rows 24-31 |
| Entities.CopySkips2a | md2teach/translate.c:104-111 | (proof helper) `&copy;` matches none of rows 32-39 |
| Entities.CopySkips2b | md2teach/translate.c:112-119 | (proof helper) `&copy;` matches none of rows 40-47 |
| Entities.CopySkips3a | md2teach/translate.c:120-126 | (proof helper) `&copy;` matches none of rows 48-54 |
| Entities.CopyMissesBlock0 | md2teach/translate.c:72-87 | (proof helper) the first 16 rows do not resolve `&copy;` |
| Entities.CopyMissesBlock1 | md2teach/translate.c:88-103 | (proof helper) rows 16-31 do not resolve `&copy;` |
| Entities.CopyMissesBlock2 | md2teach/translate.c:104-119 | (proof helper) rows 32-47 do not resolve `&copy;` |
| Entities.CopyInBlock3 | md2teach/translate.c:120-127 | rows 48-63 resolve `&copy;` to 0xA9, at its own row |
| Entities.ResolveCopy | md2teach/translate.c:127 | `&copy;` writes 0xA9 |
| Entities.ResolveBareHexA | md2teach/translate.c:656-665 | `&x41;` goes through the hexadecimal branch and writes `A` |
| OutputWriter.Writer.Valid | md2teach/io.c:22-39 | the writer invariant: the file followed by the pending buffer is the rewritten stream of everything written, the position counts the bytes written, and every request so far wrote a full 4096-byte buffer; established by the constructor and kept by every writer method (no contract of its own) |
| OutputWriter.Writer.constructor | md2teach/io.c:21-24 | the buffer is empty, nothing has been written or requested, and the writer invariant holds |
| OutputWriter.Writer.FlushBuffer | md2teach/io.c:30-39 | one write request of the pending bytes, after which the buffer is empty |
| OutputWriter.Writer.WriteChar | md2teach/io.c:89-99 | the file followed by the buffer remains the rewritten stream; a full buffer is flushed first as one 4096-byte request; the position advances by one |
| OutputWriter.Writer.WriteString | md2teach/io.c:102-108 | the bytes are appended in order and the position advances by their count |
| OutputWriter.Writer.OutputPos | md2teach/io.c:111-114 | the position is the count of bytes written so far |
| OutputWriter.Writer.Close | md2teach/io.c:117-126 | afterwards the file holds exactly the rewritten stream and no line feed; every request but the last is 4096 bytes long, and none is empty |
| Translation.SetStyle | md2teach/style.h:35 | a setStyle call, logged with the current output position; characterised by TranslationFacts.EnterBlockStyleFirst, LeaveBlockEffect and EnterSpanEffect (no contract of its own) |
| Translation.Write | md2teach/io.c:89-108 | writeChar and writeString on the state: the bytes are appended to the output; characterised by the effect lemmas (no contract of its own) |
| Translation.NewFrame | md2teach/translate.c:309-423 | the frame pushed for a block; characterised by TranslationFacts.EnterBlockFrame (no contract of its own) |
| Translation.ShouldInsertCR | md2teach/translate.c:323-428 | whether a carriage return may precede a block; characterised by TranslationFacts.EnterBlockBytes (no contract of its own) |
| Translation.ListMarker | md2teach/translate.c:439-445 | the marker of a list item; characterised by TranslationFacts.ListMarkerNumber (no contract of its own) |
| Translation.NextNumber | md2teach/translate.c:441 | an ordered list's counter advance; characterised by TranslationFacts.EnterBlockStack and EnterBlockFrame (no contract of its own) |
| Translation.EnterBlock | md2teach/translate.c:297-477 | entering a block only appends to the output and the style log |
| Translation.WritesTrailingCR | md2teach/translate.c:497-530 | the block types whose leave writes a carriage return: item, rule, header and paragraph; characterised by TranslationFacts.LeaveBlockEffect (no contract of its own) |
| Translation.LeaveBlock | md2teach/translate.c:480-546 | leaving a block only appends to the output and the style log |
| Translation.SpanSize | md2teach/translate.c:556-564 | the size the span hooks pass from the innermost frame: the header level for a header, unspecified otherwise; characterised by TranslationFacts.EnterSpanEffect and LeaveSpanEffect (no contract of its own) |
| Translation.EnterSpan | md2teach/translate.c:548-591 | entering a span only appends to the output and the style log |
| Translation.LeaveSpan | md2teach/translate.c:594-628 | leaving a span only appends to the style log: the output and the stack are unchanged |
| Translation.EntityBytes | md2teach/translate.c:630-675 | an entity writes at most one byte, and only the byte the resolver gives for a well-framed token |
| Translation.Text | md2teach/translate.c:677-731 | text events only append to the output and the style log |
| TranslationFacts.EnterBlockResult | md2teach/translate.c:297-477 | entering fails (1) exactly for an unknown type or a list item with no enclosing block, and a failure writes and styles nothing; success clears the first-block flag except for the document; the mask is never touched |
| TranslationFacts.EnterBlockStack | md2teach/translate.c:309-321 | the pushed frame records the block; its tab depth is the enclosing depth plus one for a list; only a list item changes the frame below it |
| TranslationFacts.EnterBlockFrame | md2teach/translate.c:309-423 | exactly one frame is pushed, with the block, the tab depth and the style type its kind and enclosing quote dictate; the frames below are unchanged except that an ordered list's counter advances |
| TranslationFacts.EnterBlockStyleFirst | md2teach/translate.c:384-397 | a header first restores text style and writes a separating carriage return; every successful block then logs its style at the position where its content starts |
| TranslationFacts.EnterBlockBytes | md2teach/translate.c:425-470 | the bytes for each kind of block: none for the document and quotes; an optional carriage return; for a list item a carriage return unless the list is tight, then tabs and the marker; 30 underscores for a rule |
| TranslationFacts.ListMarkerNumber | md2teach/translate.c:439-445 | outside an ordered list the marker is a bullet and a space; in one it is the counter's digits, the delimiter and a space |
| TranslationFacts.LeaveBlockEffect | md2teach/translate.c:480-546 | leaving with an empty stack or a mismatched type changes nothing and fails; otherwise it pops one frame and writes a carriage return for items, rules, headers and paragraphs; the enclosing block's style is restored at the end of the output; a header first restores text style there |
| TranslationFacts.LeaveInnermost | md2teach/translate.c:484-495 | leaving the innermost known block succeeds and pops exactly it |
| TranslationFacts.EnterLeaveOrderedItem | md2teach/translate.c:439-441 | an item of an ordered list leaves the stack as it was, with the list's counter one higher |
| TranslationFacts.EnterLeaveOther | md2teach/translate.c:309-321 | entering and leaving any other known block restores the stack |
| TranslationFacts.EnterLeaveRestoresStack | md2teach/translate.c:297-546 | entering a known block and leaving it succeeds and restores the stack, except that an ordered list's counter advances by one |
| TranslationFacts.EnterItemBytes | md2teach/translate.c:425-447 | a list item (not the first block) pushes one frame of type list item and writes its head: a carriage return unless the list is tight, the tabs and the marker of its list |
| TranslationFacts.LeaveItemBytes | md2teach/translate.c:510-512 | leaving a list item writes one carriage return and keeps the flag and the mask |
| TranslationFacts.RenumberedAdds | md2teach/translate.c:441 | (proof helper) advancing a list's counter by a and then by b advances it by a + b |
| TranslationFacts.SetBitIsSet | md2teach/translate.c:555 | (proof helper) or-ing in a style bit sets it |
| TranslationFacts.SetBitKeepsOthers | md2teach/translate.c:563 | (proof helper) or-ing in a style bit leaves the other bits alone |
| TranslationFacts.ClearBitIsClear | md2teach/translate.c:598 | (proof helper) and-ing with a complemented bit clears it |
| TranslationFacts.ClearBitKeepsOthers | md2teach/translate.c:603 | (proof helper) and-ing with a complemented bit leaves the other bits alone |
| TranslationFacts.EnterSpanEffect | md2teach/translate.c:548-591 | entering emphasis or strong sets its bit, leaves the other bits alone and logs the frame's style; a code span logs plain code style; links and images change nothing; unknown spans fail; nothing is written |
| TranslationFacts.LeaveSpanEffect | md2teach/translate.c:594-628 | leaving emphasis or strong clears its bit, leaves the other bits alone and logs the frame's style; leaving a code span restores the frame's style with the mask unchanged; nothing is written |
| TranslationFacts.StyledSpanRoundTrip | md2teach/translate.c:555-604 | an emphasis or strong span that was not already open restores the mask |
| TranslationFacts.CodeSpanRoundTrip | md2teach/translate.c:577-615 | a code span switches to plain code style and back to the frame's style at the same position, and changes neither the mask nor the stack |
| TranslationFacts.TextEffect | md2teach/translate.c:677-731 | normal and code text are written as given; a hard break writes a line feed; a soft break writes nothing; an entity writes at most the one resolved byte; a NUL character or an unknown type fails; the stack, mask, flag and log are untouched |
| TranslationFacts.Step | md2teach/translate.c:55-65 | one parser event dispatched to its hook; characterised by StepKeepsInv and StepKeepsPrefix (no contract of its own) |
| TranslationFacts.Run | md2teach/translate.c:742 | md_parse's calls of the hooks over a sequence of events, stopping at the first non-zero return; characterised by RunKeepsInv and RunKeepsPrefix (no contract of its own) |
| TranslationFacts.Inv | md2teach/translate.c:309-321 | the translator invariant: each frame's tab depth is the number of lists at or below it, and the style log is ordered by output position; established by InitialInv and kept by StepKeepsInv and RunKeepsInv (no contract of its own) |
| TranslationFacts.InitialInv | md2teach/translate.c:67-69 | the initial state satisfies the invariant |
| TranslationFacts.CountListsSameKinds | md2teach/translate.c:309-321 | stacks with lists at the same places have the same list count |
| TranslationFacts.PushKeepsTabs | md2teach/translate.c:309-321 | pushing a frame with the inherited depth, plus one for a list, keeps every depth equal to its list count |
| TranslationFacts.PopKeepsTabs | md2teach/translate.c:494-495 | popping keeps the depths equal to list counts |
| TranslationFacts.RenumberKeepsTabs | md2teach/translate.c:441 | advancing a counter keeps the depths equal to list counts |
| TranslationFacts.AppendKeepsOrder | md2teach/style.h:35 | new style calls that stay within the output and in order keep the log ordered |
| TranslationFacts.EnterBlockKeepsTabs | md2teach/translate.c:309-441 | entering a block keeps every tab depth equal to the number of lists at or below it |
| TranslationFacts.EnterBlockKeepsOrder | md2teach/translate.c:384-470 | entering a block keeps the style log ordered by output position |
| TranslationFacts.EnterBlockKeepsInv | md2teach/translate.c:297-477 | entering a block preserves the invariant |
| TranslationFacts.LeaveBlockKeepsInv | md2teach/translate.c:480-546 | leaving a block preserves the invariant |
| TranslationFacts.StepKeepsInv | md2teach/translate.c:55-65 | every parser event preserves the invariant that tab depths count enclosing lists and the style log is ordered |
| TranslationFacts.RunKeepsInv | md2teach/translate.c:55-65 | every state reached by the parser's run over any sequence of events, which stops at the first non-zero return, satisfies the invariant |
| TranslationFacts.StepKeepsPrefix | md2teach/translate.c:297-731 | an event that leaves the frame at index d open keeps every frame up to d (when that frame is not an ordered list), never sets the first-block flag again and only appends to the output |
| TranslationFacts.RunKeepsPrefix | md2teach/translate.c:55-65 | a run of events that never closes the frame at index d keeps every frame up to d, never sets the flag again and only appends to the output |
| TranslationFacts.ItemContentStack | md2teach/translate.c:297-546 | the well-nested content of a list item leaves the stack exactly as it was when the item was entered, with the item on top |
| TranslationFacts.ItemStack | md2teach/translate.c:439-441 | one item of an ordered list, whatever its content, advances the list's counter by one and leaves the rest of the stack alone |
| TranslationFacts.EnterOrderedItemStack | md2teach/translate.c:439-441 | (proof helper) entering an item of an ordered list pushes its frame with the list's counter advanced by one |
| TranslationFacts.ItemOutput | md2teach/translate.c:431-512 | one item writes its head (carriage return, tabs, the number before the advance), then its content's bytes, then a carriage return |
| TranslationFacts.ItemsOkPrefix | md2teach/translate.c:55-65 | (proof helper) the items before k of a well-nested list are well nested |
| TranslationFacts.OrderedListNumbering | md2teach/translate.c:439-441 | after n items, whatever they contain, the ordered list's counter is its start plus n and every other frame is unchanged |
| TranslationFacts.NumberingStep | md2teach/translate.c:441 | (proof helper) one more item takes the counter from start + k - 1 to start + k |
| TranslationFacts.OrderedListItems | md2teach/translate.c:431-512 | item k of an ordered list (from 0) writes its head with the number start + k, then its content, then a carriage return |
| TranslationFacts.RunFirst | md2teach/translate.c:55-65 | (proof helper) a run whose first event succeeds continues with the rest |
| TranslationFacts.ParagraphItemOk | md2teach/translate.c:297-731 | an item whose content is one paragraph of text is well nested |
| TranslationFacts.ParagraphSteps | md2teach/translate.c:297-546 | (proof helper) the three events of a paragraph all succeed, and the paragraph's leave restores the stack |
| TranslationFacts.ParagraphItems | md2teach/translate.c:297-731 | one body of events per text, each a paragraph |
| TranslationFacts.ParagraphListOk | md2teach/translate.c:297-731 | a list of paragraph items, of any length, meets the hypothesis of OrderedListNumbering and OrderedListItems |
| Hooks.StrLen | md2teach/translate.c:445 | strlen: the count of bytes before the first NUL |
| Hooks.StrLenAppend | md2teach/translate.c:445 | strlen of NUL-free bytes followed by more is their count plus the strlen of the rest |
| Hooks.OrderedMarkerLength | md2teach/translate.c:440-445 | the written marker is the number, the delimiter and a space; a NUL delimiter cuts it to the number |
| Hooks.WriteAcrossRestack | md2teach/translate.c:436-445 | (proof helper) writing tabs, changing the stack, then writing the marker is the same as writing both after the change |
| Hooks.HeaderPrelude | md2teach/translate.c:384-392 | a header's return to plain text and its separating carriage return; characterised by EnterBlockSteps (no contract of its own) |
| Hooks.Content | md2teach/translate.c:430-470 | a list item's tabs and marker with the counter advance, or a rule's underscores; characterised by EnterBlockSteps (no contract of its own) |
| Hooks.EnterBlockSteps | md2teach/translate.c:297-477 | a successful enter is the header prelude, the style change, the optional carriage return and the content, in that order |
| Hooks.Translator.Valid | md2teach/io.c:22-39 | the translator's writer satisfies the writer invariant; established by the constructor and kept by every hook (no contract of its own) |
| Hooks.Translator.Abs | md2teach/translate.c:67-69 | the translator's state as the pure model sees it: stack, mask, flag, bytes written and style log; each hook's contract is stated through it (no contract of its own) |
| Hooks.Translator.constructor | md2teach/translate.c:67-69 | no open block, a plain mask, the first-block flag set, and an empty output |
| Hooks.Translator.SetStyle | md2teach/style.h:35 | logs a style change at the current output position |
| Hooks.Translator.WriteChar | md2teach/io.c:89-99 | appends one byte to the output |
| Hooks.Translator.WriteString | md2teach/io.c:102-108 | appends the bytes to the output |
| Hooks.Translator.WriteRepeated | md2teach/translate.c:436-437 | a loop that writes n copies of a byte |
| Hooks.Translator.FrameFor | md2teach/translate.c:309-423 | computes the new frame, whether a carriage return may precede the block, and the header size |
| Hooks.Translator.WriteOrderedMarker | md2teach/translate.c:439-445 | writes the counter's marker and advances the counter |
| Hooks.Translator.WriteBullet | md2teach/translate.c:442-445 | writes a bullet and a space |
| Hooks.Translator.WriteItemMarker | md2teach/translate.c:431-447 | writes the tabs and the marker, and advances an ordered list's counter |
| Hooks.Translator.EnterStyle | md2teach/translate.c:384-428 | the header prelude, the block's style change and the optional carriage return |
| Hooks.Translator.EnterContent | md2teach/translate.c:430-470 | a list item's tabs and marker, or a rule's underscores |
| Hooks.Translator.EnterBlockHook | md2teach/translate.c:297-477 | enterBlockHook on the mutable state matches EnterBlock, the return code included |
| Hooks.Translator.LeaveBlockHook | md2teach/translate.c:480-546 | leaveBlockHook on the mutable state matches LeaveBlock, the return code included |
| Hooks.Translator.LeaveBytes | md2teach/translate.c:497-532 | for each known type: for a header, restores the enclosing style; then writes the trailing carriage return where one is due |
| Hooks.Translator.EnterSpanHook | md2teach/translate.c:548-591 | enterSpanHook on the mutable state matches EnterSpan |
| Hooks.Translator.LeaveSpanHook | md2teach/translate.c:594-628 | leaveSpanHook on the mutable state matches LeaveSpan |
| Hooks.Translator.PrintEntity | md2teach/translate.c:630-675 | the loop over the table writes exactly the bytes EntityBytes gives for the token |
| Hooks.Translator.TextHook | md2teach/translate.c:677-731 | textHook on the mutable state matches Text |

## Left out

- setStyle's body (style.c) is not part of this model. It is represented by a log of its arguments and the output position.
- Debug tracing to standard error (`debugEnabled`, `debugIndentLevel`, the entity echo in textHook) produces no document bytes.
- Running out of memory in enterBlockHook (translate.c lines 302-307) is not modelled: allocation always succeeds. Freeing the popped frame is implicit.
- The GS/OS calls (WriteGS, CloseGS, opening the file) are not modelled. The file is the `sink` sequence. The process exit after a failed write is not modelled: every write succeeds.
- `parse`, `styleInit`/`closeStyle`, `md_parse` itself, main.c and the babelfish translator are not part of this model. The parser is represented by any sequence of events, each handled by `TranslationFacts.Step`, with the run stopping at the first hook that returns non-zero (`TranslationFacts.Run`).
- Entities.StrToUL: strtoul's skipping of leading white space, its sign and its `0x` prefix in base 16 are not modelled. Only digit runs are read.
- Translation.EnterBlock: the ordered-list counter is unbounded. The fixed-width wrap of `start++` and of `%u` (md4c's `unsigned`) is not modelled.
- OutputWriter.Writer.OutputPos: the position is unbounded. The fixed-width wrap of `writePos`, an `MD_SIZE`, is not modelled.
- Translation.SpanSize: the span hooks read `u.hDetail.level` from whatever frame is innermost. Only for a header is that a header level. For any other block, the bytes of its detail record are modelled as `Unspecified`.
- Translation.EnterSpan: the emphasis, strong and code span hooks dereference the innermost frame. Calling them with no open block would dereference NULL, so the model requires an open block there (`TranslationFacts.Allowed`).
- Entities.Resolve: its own contract states only the framing. The lemmas HashReference, DecimalReference, HexReference, HexReferenceUnresolved and NamedReference state what each kind of token resolves to.
- A hexadecimal reference written `&#x41;` resolves to nothing. The hexadecimal branch tests for `x` directly after the `&`, so it only fires for `&x41;`. The model follows the code (Entities.HexReferenceUnresolved, Entities.ResolveBareHexA).
- The `&NewLine;` row maps to 0x13, not a line feed. The model keeps the table as written (Entities.ResolveNewLine).
- Entity examples are worked out for only a few tokens. Per-token lookups deep into the table are covered by the general lemmas, not by individual examples.
