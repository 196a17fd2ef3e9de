/**
 * The Markdown-to-HTML line converter of the printable summary
 * (components/PrintableSummary.tsx): each line of the guidance text becomes a heading, a
 * list item or a paragraph, with at most one bullet or numbered list open at a time.
 */
module PrintableSummary {
  import opened Types
  import opened Strings

  // ---------------------------------------------------------------- lines

  /** `markdown.split('\n')` */
  function SplitLines(s: string): (r: seq<string>)
    ensures |r| >= 1
    ensures forall i :: 0 <= i < |r| ==> '\n' !in r[i]
    decreases |s|
  {
    var k := IndexOf(s, '\n');
    if k == -1 then [s] else [s[..k]] + SplitLines(s[k + 1..])
  }

  /** `lines.join('\n')` */
  function JoinLines(lines: seq<string>): string
    requires |lines| >= 1
  {
    if |lines| == 1 then lines[0] else lines[0] + "\n" + JoinLines(lines[1..])
  }

  /** Splitting and joining again gives back the text. */
  lemma {:induction false} JoinSplitLines(s: string)
    ensures JoinLines(SplitLines(s)) == s
    decreases |s|
  {
    var k := IndexOf(s, '\n');
    if k != -1 {
      var rest := SplitLines(s[k + 1..]);
      JoinSplitLines(s[k + 1..]);
      var lines := [s[..k]] + rest;
      assert SplitLines(s) == lines;
      assert lines[0] == s[..k] && lines[1..] == rest;
      assert JoinLines(lines) == s[..k] + "\n" + JoinLines(rest);
      assert s == s[..k] + "\n" + s[k + 1..];
    }
  }

  /** Joining lines without line breaks and splitting again gives back the lines. */
  lemma {:induction false} SplitJoinLines(lines: seq<string>)
    requires |lines| >= 1
    requires forall i :: 0 <= i < |lines| ==> '\n' !in lines[i]
    ensures SplitLines(JoinLines(lines)) == lines
  {
    var s := JoinLines(lines);
    var head := lines[0];
    if |lines| == 1 {
      assert IndexOf(s, '\n') == -1;
    } else {
      var rest := JoinLines(lines[1..]);
      assert s == head + "\n" + rest;
      forall k | 0 <= k < |head| ensures s[k] != '\n' {
        assert s[k] == head[k] && head[k] in head;
      }
      assert s[|head|] == '\n';
      assert IndexOf(s, '\n') == |head|;
      assert s[|head| + 1..] == rest;
      assert s[..|head|] == head;
      SplitJoinLines(lines[1..]);
    }
  }

  // ---------------------------------------------------------------- line tests

  /** `line.startsWith('### ')` */
  predicate IsHeading(line: string) {
    StartsWith(line, "### ")
  }

  /** `line.startsWith('* ')` */
  predicate IsBullet(line: string) {
    StartsWith(line, "* ")
  }

  /** Length of the run of digits the line starts with. */
  function DigitRun(line: string): (k: nat)
    ensures k <= |line|
    ensures forall i :: 0 <= i < k ==> IsDigit(line[i])
    ensures k < |line| ==> !IsDigit(line[k])
  {
    if |line| == 0 || !IsDigit(line[0]) then 0 else 1 + DigitRun(line[1..])
  }

  /** The line starts with digits, a '.', and a `\s` character: `/^\d+\.\s/` matches at its start. */
  predicate IsNumbered(line: string) {
    var k := DigitRun(line);
    0 < k && k + 1 < |line| && line[k] == '.' && IsWhitespace(line[k + 1])
  }

  /** `^\d+\.\s` matches the first `k + 2` characters of the line. */
  predicate NumberPrefixAt(line: string, k: nat) {
    0 < k && k + 1 < |line| && (forall i :: 0 <= i < k ==> IsDigit(line[i])) && line[k] == '.' && IsWhitespace(line[k + 1])
  }

  /** The pattern matches at the start of the line exactly when the line is numbered, and only one match length is possible. */
  lemma NumberPrefixUnique(line: string, k: nat)
    ensures NumberPrefixAt(line, k) ==> IsNumbered(line) && k == DigitRun(line)
    ensures IsNumbered(line) ==> NumberPrefixAt(line, DigitRun(line))
  {
  }

  /** `line.replace(/^\d+\.\s/, '')` on a numbered line. */
  function StripNumber(line: string): (r: string)
    requires IsNumbered(line)
    ensures |r| == |line| - DigitRun(line) - 2
    ensures line == line[..DigitRun(line) + 2] + r
    ensures forall k :: NumberPrefixAt(line, k) ==> r == line[k + 2..]
  {
    line[DigitRun(line) + 2..]
  }

  // ---------------------------------------------------------------- output

  datatype ListType = Ul | Ol

  /** `listType`: the list currently open, if any. */
  type ListMode = Option<ListType>

  /** The pieces the converter appends to its output. */
  datatype Tag =
    | Heading(text: string)
    | Open(kind: ListType)
    | Item(text: string)
    | Close(kind: ListType)
    | Paragraph(text: string)

  const HeadingStart: string := "<h3 class=\"text-base font-bold text-slate-800 mt-3 mb-1\">"
  const BulletListStart: string := "<ul style=\"list-style-type: disc; padding-left: 20px;\">"
  const NumberedListStart: string := "<ol style=\"list-style-type: decimal; padding-left: 20px;\">"
  const ParagraphStart: string := "<p style=\"margin-top: 4px;\">"

  /** The HTML text of each piece; the line text is inserted as it is. */
  function Render(t: Tag): string {
    match t
    case Heading(text) => HeadingStart + text + "</h3>"
    case Open(Ul) => BulletListStart
    case Open(Ol) => NumberedListStart
    case Item(text) => "<li>" + text + "</li>"
    case Close(Ul) => "</ul>"
    case Close(Ol) => "</ol>"
    case Paragraph(text) => ParagraphStart + text + "</p>"
  }

  function Serialize(ts: seq<Tag>): string {
    if |ts| == 0 then "" else Render(ts[0]) + Serialize(ts[1..])
  }

  lemma {:induction false} SerializeAppend(a: seq<Tag>, b: seq<Tag>)
    ensures Serialize(a + b) == Serialize(a) + Serialize(b)
  {
    if |a| == 0 {
      assert a + b == b;
    } else {
      assert (a + b)[0] == a[0];
      assert (a + b)[1..] == a[1..] + b;
      SerializeAppend(a[1..], b);
    }
  }

  lemma Associate(a: string, b: string, c: string, d: string)
    ensures a + b + c + d == a + (b + (c + d))
    ensures a + b + c == a + (b + c)
  {
  }

  lemma SerializeSmall(x: Tag, y: Tag)
    ensures Serialize([x]) == Render(x)
    ensures Serialize([x, y]) == Render(x) + Render(y)
  {
    assert [x][1..] == [];
    assert [x, y][1..] == [y];
    assert [y][1..] == [];
  }

  // ---------------------------------------------------------------- the conversion

  /** What `closeList` appends. */
  function CloseTags(mode: ListMode): seq<Tag> {
    match mode
    case None => []
    case Some(kind) => [Close(kind)]
  }

  /** An item of a list of kind `kind`, opening that list first (after closing any other) unless it is already open. */
  function ListItem(mode: ListMode, kind: ListType, text: string): seq<Tag> {
    if mode == Some(kind) then [Item(text)] else CloseTags(mode) + [Open(kind), Item(text)]
  }

  /**
   * One line: a heading closes any list; a bullet or numbered line opens its list unless
   * that kind is already open (closing the other kind first) and adds an item; any other
   * non-blank line closes the list and becomes a paragraph; a blank line only closes the list.
   */
  function Step(mode: ListMode, line: string): (r: (seq<Tag>, ListMode))
    ensures r.1 == Some(Ul) <==> IsBullet(line)
    ensures r.1 == Some(Ol) <==> IsNumbered(line)
  {
    ListLinesAreNotHeadings(line);
    if IsHeading(line) then
      (CloseTags(mode) + [Heading(line[4..])], None)
    else if IsBullet(line) then
      (ListItem(mode, Ul, line[2..]), Some(Ul))
    else if IsNumbered(line) then
      (ListItem(mode, Ol, StripNumber(line)), Some(Ol))
    else if !IsBlank(line) then
      (CloseTags(mode) + [Paragraph(line)], None)
    else
      (CloseTags(mode), None)
  }

  /**
   * The pieces emitted for `lines`, and the list left open after them: the list of the last
   * line's kind when that line is a list line, and none otherwise.
   */
  function Run(lines: seq<string>): (r: (seq<Tag>, ListMode))
    ensures r.1 == Some(Ul) <==> |lines| > 0 && IsBullet(lines[|lines| - 1])
    ensures r.1 == Some(Ol) <==> |lines| > 0 && IsNumbered(lines[|lines| - 1])
  {
    if |lines| == 0 then ([], None)
    else
      var (ts, mode) := Run(lines[..|lines| - 1]);
      var (more, mode') := Step(mode, lines[|lines| - 1]);
      (ts + more, mode')
  }

  /**
   * The whole conversion: nothing for empty input, else every line in turn and a final
   * close.
   */
  function Convert(markdown: string): (r: seq<Tag>)
    ensures |markdown| == 0 ==> r == []
  {
    if |markdown| == 0 then []
    else
      var (ts, mode) := Run(SplitLines(markdown));
      ts + CloseTags(mode)
  }

  /** The output state of `markdownToPrintableHtml`: the text so far and the open list. */
  class HtmlWriter {
    var html: string
    var listType: ListMode

    constructor()
      ensures html == "" && listType == None
    {
      html := "";
      listType := None;
    }

    /** closeList: close the open list, if any. */
    method CloseList()
      modifies this
      ensures html == old(html) + Serialize(CloseTags(old(listType)))
      ensures listType == None
    {
      if listType.Some? {
        html := html + (if listType == Some(Ul) then "</ul>" else "</ol>");
        listType := None;
      }
    }

    /** Append one piece. */
    method Emit(t: Tag)
      modifies this`html
      ensures html == old(html) + Render(t)
    {
      html := html + Render(t);
    }

    /** A list item, opening its list first unless that kind is already open. */
    method AddItem(kind: ListType, text: string)
      modifies this
      ensures html == old(html) + Serialize(ListItem(old(listType), kind, text))
      ensures listType == Some(kind)
    {
      ghost var mode := listType;
      ghost var before := html;
      if listType != Some(kind) {
        CloseList();
        Emit(Open(kind));
        listType := Some(kind);
        Emit(Item(text));
        SerializeAppend(CloseTags(mode), [Open(kind), Item(text)]);
        SerializeSmall(Open(kind), Item(text));
        Associate(before, Serialize(CloseTags(mode)), Render(Open(kind)), Render(Item(text)));
      } else {
        Emit(Item(text));
        SerializeSmall(Item(text), Item(text));
      }
    }

    /** Close any list, then append a heading or a paragraph. */
    method AddBlock(t: Tag)
      requires t.Heading? || t.Paragraph?
      modifies this
      ensures html == old(html) + Serialize(CloseTags(old(listType)) + [t])
      ensures listType == None
    {
      ghost var mode := listType;
      ghost var before := html;
      CloseList();
      Emit(t);
      SerializeAppend(CloseTags(mode), [t]);
      SerializeSmall(t, t);
      Associate(before, Serialize(CloseTags(mode)), Render(t), "");
    }

    /** The body of the line loop: the first test that matches decides what the line becomes. */
    method AddLine(line: string)
      modifies this
      ensures html == old(html) + Serialize(Step(old(listType), line).0)
      ensures listType == Step(old(listType), line).1
    {
      if StartsWith(line, "### ") {
        AddBlock(Heading(line[4..]));
      } else if StartsWith(line, "* ") {
        AddItem(Ul, line[2..]);
      } else if IsNumbered(line) {
        AddItem(Ol, StripNumber(line));
      } else if !IsBlank(line) {
        AddBlock(Paragraph(line));
      } else {
        CloseList();
      }
    }
  }

  /** `markdownToPrintableHtml`: the HTML text of the conversion. */
  method MarkdownToPrintableHtml(markdown: string) returns (html: string)
    ensures html == Serialize(Convert(markdown))
    ensures |markdown| == 0 ==> html == ""
  {
    if |markdown| == 0 {
      return "";
    }
    var lines := SplitLines(markdown);
    var w := new HtmlWriter();
    for i := 0 to |lines|
      invariant w.html == Serialize(Run(lines[..i]).0)
      invariant w.listType == Run(lines[..i]).1
    {
      var line := lines[i];
      ghost var expected := Step(w.listType, line);
      w.AddLine(line);
      assert lines[..i + 1][..i] == lines[..i] && lines[..i + 1][i] == line;
      SerializeAppend(Run(lines[..i]).0, expected.0);
    }
    assert lines[..|lines|] == lines;
    w.CloseList();
    SerializeAppend(Run(lines).0, CloseTags(Run(lines).1));
    html := w.html;
  }

  // ---------------------------------------------------------------- facts about the conversion

  /**
   * Reading one piece in list state `mode`: a list opens only when none is open, an item
   * only appears inside a list, a list closes only when it is the one open, and headings and
   * paragraphs only appear outside lists. None when the piece is out of place.
   */
  function TagStep(t: Tag, mode: ListMode): Option<ListMode> {
    match t
    case Heading(_) => if mode.None? then Some(None) else None
    case Paragraph(_) => if mode.None? then Some(None) else None
    case Open(kind) => if mode.None? then Some(Some(kind)) else None
    case Item(_) => if mode.Some? then Some(mode) else None
    case Close(kind) => if mode == Some(kind) then Some(None) else None
  }

  /** The list state after reading `ts` from `mode`, or None if some piece is out of place. */
  function Track(ts: seq<Tag>, mode: ListMode): Option<ListMode> {
    if |ts| == 0 then Some(mode)
    else match TagStep(ts[0], mode)
      case None => None
      case Some(next) => Track(ts[1..], next)
  }

  /** Lists never nest, every item is inside a list, every list opened is closed by its own kind, and none is left open. */
  predicate WellFormed(ts: seq<Tag>) {
    Track(ts, None) == Some(None)
  }

  lemma {:induction false} TrackAppend(a: seq<Tag>, b: seq<Tag>, mode: ListMode)
    ensures Track(a + b, mode) == match Track(a, mode) case None => None case Some(m) => Track(b, m)
  {
    if |a| == 0 {
      assert a + b == b;
    } else {
      assert (a + b)[0] == a[0];
      assert (a + b)[1..] == a[1..] + b;
      match TagStep(a[0], mode)
      case None =>
      case Some(next) => TrackAppend(a[1..], b, next);
    }
  }

  /** Each line's pieces read cleanly from the list state before it and end in the state after it. */
  lemma StepTracks(mode: ListMode, line: string)
    ensures Track(Step(mode, line).0, mode) == Some(Step(mode, line).1)
  {
    var (ts, next) := Step(mode, line);
    var close := CloseTags(mode);
    assert Track(close, mode) == Some(None);
    if IsHeading(line) {
      TrackAppend(close, [Heading(line[4..])], mode);
    } else if IsBullet(line) || IsNumbered(line) {
      var kind := if IsBullet(line) then Ul else Ol;
      var text := if IsBullet(line) then line[2..] else StripNumber(line);
      assert ts == ListItem(mode, kind, text);
      ListItemTracks(mode, kind, text);
    } else if !IsBlank(line) {
      TrackAppend(close, [Paragraph(line)], mode);
    }
  }

  lemma ListItemTracks(mode: ListMode, kind: ListType, text: string)
    ensures Track(ListItem(mode, kind, text), mode) == Some(Some(kind))
  {
    if mode == Some(kind) {
      assert [Item(text)][1..] == [];
    } else {
      var close := CloseTags(mode);
      assert Track(close, mode) == Some(None);
      TrackAppend(close, [Open(kind), Item(text)], mode);
      assert [Open(kind), Item(text)][1..] == [Item(text)];
      assert [Item(text)][1..] == [];
      assert Track([Item(text)], Some(kind)) == Some(Some(kind));
      assert Track([Open(kind), Item(text)], None) == Some(Some(kind));
    }
  }

  lemma {:induction false} RunTracks(lines: seq<string>)
    ensures Track(Run(lines).0, None) == Some(Run(lines).1)
  {
    if |lines| > 0 {
      var init := lines[..|lines| - 1];
      RunTracks(init);
      var (ts, mode) := Run(init);
      StepTracks(mode, lines[|lines| - 1]);
      TrackAppend(ts, Step(mode, lines[|lines| - 1]).0, None);
    }
  }

  /** The output of every conversion is well formed: the final close leaves no list open. */
  lemma ConvertWellFormed(markdown: string)
    ensures WellFormed(Convert(markdown))
  {
    if |markdown| > 0 {
      var lines := SplitLines(markdown);
      RunTracks(lines);
      var (ts, mode) := Run(lines);
      TrackAppend(ts, CloseTags(mode), None);
    }
  }

  function CountOpen(ts: seq<Tag>): nat {
    if |ts| == 0 then 0 else (if ts[0].Open? then 1 else 0) + CountOpen(ts[1..])
  }

  function CountClose(ts: seq<Tag>): nat {
    if |ts| == 0 then 0 else (if ts[0].Close? then 1 else 0) + CountClose(ts[1..])
  }

  /** Reading cleanly, opens and closes pair up, counting the list open at either end. */
  lemma {:induction false} TrackPairs(ts: seq<Tag>, mode: ListMode, final: ListMode)
    requires Track(ts, mode) == Some(final)
    ensures CountOpen(ts) + (if mode.Some? then 1 else 0) == CountClose(ts) + (if final.Some? then 1 else 0)
  {
    if |ts| > 0 {
      var next := TagStep(ts[0], mode).value;
      TrackPairs(ts[1..], next, final);
    }
  }

  /** Every `<ul>` or `<ol>` the conversion opens is closed exactly once. */
  lemma ConvertPairsLists(markdown: string)
    ensures CountOpen(Convert(markdown)) == CountClose(Convert(markdown))
  {
    ConvertWellFormed(markdown);
    TrackPairs(Convert(markdown), None, None);
  }

  /** The headings, items and paragraphs of `ts`, in order. */
  function Contents(ts: seq<Tag>): seq<Tag> {
    if |ts| == 0 then []
    else (if ts[0].Open? || ts[0].Close? then [] else [ts[0]]) + Contents(ts[1..])
  }

  lemma {:induction false} ContentsAppend(a: seq<Tag>, b: seq<Tag>)
    ensures Contents(a + b) == Contents(a) + Contents(b)
  {
    if |a| == 0 {
      assert a + b == b;
    } else {
      assert (a + b)[0] == a[0];
      assert (a + b)[1..] == a[1..] + b;
      ContentsAppend(a[1..], b);
    }
  }

  /**
   * What one line shows, whatever list is open: the first test that matches, in the order
   * heading, bullet, numbered, non-blank, decides; a blank line shows nothing.
   */
  function LineContent(line: string): seq<Tag> {
    if IsHeading(line) then [Heading(line[4..])]
    else if IsBullet(line) then [Item(line[2..])]
    else if IsNumbered(line) then [Item(StripNumber(line))]
    else if !IsBlank(line) then [Paragraph(line)]
    else []
  }

  function AllContent(lines: seq<string>): seq<Tag> {
    if |lines| == 0 then [] else AllContent(lines[..|lines| - 1]) + LineContent(lines[|lines| - 1])
  }

  function NonBlankCount(lines: seq<string>): nat {
    if |lines| == 0 then 0 else NonBlankCount(lines[..|lines| - 1]) + (if IsBlank(lines[|lines| - 1]) then 0 else 1)
  }

  /** A heading, bullet or numbered line is never blank, so each line shows one piece exactly when it is not blank. */
  lemma LineContentCount(line: string)
    ensures |LineContent(line)| == if IsBlank(line) then 0 else 1
  {
    if IsHeading(line) || IsBullet(line) || IsNumbered(line) {
      assert !IsWhitespace(line[0]);
    }
  }

  lemma StepContents(mode: ListMode, line: string)
    ensures Contents(Step(mode, line).0) == LineContent(line)
  {
    var ts := Step(mode, line).0;
    var close := CloseTags(mode);
    assert Contents(close) == [];
    if IsHeading(line) {
      ContentsAppend(close, [Heading(line[4..])]);
    } else if IsBullet(line) || IsNumbered(line) {
      var kind := if IsBullet(line) then Ul else Ol;
      var text := if IsBullet(line) then line[2..] else StripNumber(line);
      assert ts == ListItem(mode, kind, text);
      if mode != Some(kind) {
        ContentsAppend(close, [Open(kind), Item(text)]);
      }
    } else if !IsBlank(line) {
      ContentsAppend(close, [Paragraph(line)]);
    }
  }

  lemma {:induction false} RunContents(lines: seq<string>)
    ensures Contents(Run(lines).0) == AllContent(lines)
    ensures |AllContent(lines)| == NonBlankCount(lines)
  {
    if |lines| > 0 {
      var init := lines[..|lines| - 1];
      var last := lines[|lines| - 1];
      RunContents(init);
      var (ts, mode) := Run(init);
      StepContents(mode, last);
      ContentsAppend(ts, Step(mode, last).0);
      LineContentCount(last);
    }
  }

  /**
   * The headings, items and paragraphs of the output are, in order, what the lines show one
   * by one; there is one of them per non-blank line.
   */
  lemma ConvertContents(markdown: string)
    requires |markdown| > 0
    ensures Contents(Convert(markdown)) == AllContent(SplitLines(markdown))
    ensures |Contents(Convert(markdown))| == NonBlankCount(SplitLines(markdown))
  {
    var lines := SplitLines(markdown);
    RunContents(lines);
    var (ts, mode) := Run(lines);
    ContentsAppend(ts, CloseTags(mode));
    assert Contents(CloseTags(mode)) == [];
  }

  /** A line of a list of kind `kind`: a bullet line for 'ul', a numbered line for 'ol'. */
  predicate IsListLine(kind: ListType, line: string) {
    if kind == Ul then IsBullet(line) else IsNumbered(line)
  }

  /** The item text of such a line, its list marker removed. */
  function ItemText(kind: ListType, line: string): string
    requires IsListLine(kind, line)
  {
    if kind == Ul then line[2..] else StripNumber(line)
  }

  /** Bullet and numbered lines are not headings, and a numbered line is not a bullet line. */
  lemma ListLinesAreNotHeadings(line: string)
    ensures IsBullet(line) ==> !IsHeading(line)
    ensures IsNumbered(line) ==> !IsHeading(line) && !IsBullet(line)
  {
    assert |line| >= 2 ==> line[..2][0] == line[0];
    assert |line| >= 4 ==> line[..4][0] == line[0];
    assert IsNumbered(line) ==> IsDigit(line[0]);
  }

  /** The list line after a list of the other kind closes that list before opening its own. */
  lemma SwitchingListsClosesFirst(kind: ListType, other: ListType, line: string)
    requires kind != other && IsListLine(kind, line)
    ensures Step(Some(other), line) == ([Close(other), Open(kind), Item(ItemText(kind, line))], Some(kind))
  {
    ListLinesAreNotHeadings(line);
    assert CloseTags(Some(other)) + [Open(kind), Item(ItemText(kind, line))]
        == [Close(other), Open(kind), Item(ItemText(kind, line))];
  }

  /** A list line adds an item to its own open list, and opens that list when none is open. */
  lemma ListLineSteps(kind: ListType, line: string)
    requires IsListLine(kind, line)
    ensures Step(Some(kind), line) == ([Item(ItemText(kind, line))], Some(kind))
    ensures Step(None, line) == ([Open(kind), Item(ItemText(kind, line))], Some(kind))
  {
    ListLinesAreNotHeadings(line);
    assert CloseTags(None) + [Open(kind), Item(ItemText(kind, line))] == [Open(kind), Item(ItemText(kind, line))];
  }

  /** The items of a run of list lines of one kind, one per line, in order. */
  function ListItems(kind: ListType, lines: seq<string>): (r: seq<Tag>)
    requires forall i :: 0 <= i < |lines| ==> IsListLine(kind, lines[i])
    ensures |r| == |lines|
    ensures forall i :: 0 <= i < |lines| ==> r[i] == Item(ItemText(kind, lines[i]))
  {
    if |lines| == 0 then []
    else ListItems(kind, lines[..|lines| - 1]) + [Item(ItemText(kind, lines[|lines| - 1]))]
  }

  /** A run of list lines of one kind opens one list and gives one item per line. */
  lemma {:induction false} ListRun(kind: ListType, lines: seq<string>)
    requires |lines| >= 1
    requires forall i :: 0 <= i < |lines| ==> IsListLine(kind, lines[i])
    ensures Run(lines).1 == Some(kind)
    ensures Run(lines).0 == [Open(kind)] + ListItems(kind, lines)
  {
    var last := lines[|lines| - 1];
    var init := lines[..|lines| - 1];
    ListLineSteps(kind, last);
    if |lines| == 1 {
      assert init == [];
      assert ListItems(kind, init) == [];
    } else {
      ListRun(kind, init);
      assert Run(lines).0 == Run(init).0 + [Item(ItemText(kind, last))];
      assert ListItems(kind, lines) == ListItems(kind, init) + [Item(ItemText(kind, last))];
    }
  }

  /** A document made of bullet lines only, or of numbered lines only, becomes one list holding one item per line. */
  lemma ListDocument(kind: ListType, lines: seq<string>)
    requires |lines| >= 1
    requires forall i :: 0 <= i < |lines| ==> IsListLine(kind, lines[i]) && '\n' !in lines[i]
    ensures Convert(JoinLines(lines)) == [Open(kind)] + ListItems(kind, lines) + [Close(kind)]
  {
    SplitJoinLines(lines);
    JoinLinesStart(lines);
    ListRun(kind, lines);
  }

  lemma {:induction false} JoinLinesStart(lines: seq<string>)
    requires |lines| >= 1
    ensures |JoinLines(lines)| >= |lines[0]|
  {
  }
}
