/** The _HTMLTextExtractor of content_mcp.py: a consumer of the parser's
    start-tag, end-tag and data events that keeps a token buffer and a
    counter of open script/style/noscript elements, and the get_text pass
    that turns the buffer into lines.

    The extractor's behaviour is first defined on a State value (Handle,
    Feed, TextOf) and the class HtmlTextExtractor is proved to compute it. */
module HtmlExtractor {
  import opened Text

  /** What html.parser reports (tag names already lower-cased). */
  datatype HtmlEvent = StartTag(tag: string) | EndTag(tag: string) | Data(text: string)

  /** Elements whose text is dropped. */
  predicate IsSkipTag(tag: string)
  {
    tag == "script" || tag == "style" || tag == "noscript"
  }

  /** Start tags that begin a new line. */
  predicate OpensLine(tag: string)
  {
    tag in {"p", "div", "section", "article", "li", "br", "h1", "h2", "h3", "h4", "h5", "h6"}
  }

  /** End tags that begin a new line (headings and br only open one). */
  predicate ClosesLine(tag: string)
  {
    tag in {"p", "div", "section", "article", "li"}
  }

  /** The token that marks a line break in the buffer. */
  const LineMarker := "\n"

  /** The extractor's fields: `_tokens` and `_skip_depth`. */
  datatype State = State(tokens: seq<string>, skipDepth: nat)

  const Initial := State([], 0)

  /** One handler call. The depth is a nat, so every decrement must be
      guarded: an end tag of a skipped element is counted only while one
      is open. */
  function Handle(s: State, e: HtmlEvent): State
  {
    match e
    case StartTag(t) =>
      if IsSkipTag(t) then s.(skipDepth := s.skipDepth + 1)
      else if OpensLine(t) then s.(tokens := s.tokens + [LineMarker])
      else s
    case EndTag(t) =>
      if IsSkipTag(t) && s.skipDepth > 0 then s.(skipDepth := s.skipDepth - 1)
      else if ClosesLine(t) then s.(tokens := s.tokens + [LineMarker])
      else s
    case Data(d) =>
      if s.skipDepth > 0 then s
      else if Strip(d) != "" then s.(tokens := s.tokens + [Strip(d)])
      else s
  }

  /** feed(): the handlers called on the events in order. */
  function Feed(s: State, events: seq<HtmlEvent>): State
    decreases |events|
  {
    if events == [] then s else Handle(Feed(s, events[..|events| - 1]), events[|events| - 1])
  }

  /** A token is a line marker, or a non-empty piece of text with no
      whitespace at either end. */
  predicate WellFormedToken(t: string)
  {
    t == LineMarker || (t != "" && TrimmedEnds(t))
  }

  predicate WellFormedTokens(tokens: seq<string>)
  {
    forall i :: 0 <= i < |tokens| ==> WellFormedToken(tokens[i])
  }

  /** Handlers only ever append, and only well-formed tokens. */
  lemma HandleAppends(s: State, e: HtmlEvent)
    ensures var t := Handle(s, e).tokens;
      |s.tokens| <= |t| <= |s.tokens| + 1 && t[..|s.tokens|] == s.tokens
      && forall i :: |s.tokens| <= i < |t| ==> WellFormedToken(t[i])
  {
    if e.Data? && s.skipDepth == 0 && Strip(e.text) != "" {
      StripTrimmed(e.text);
    }
  }

  /** Feeding one more event is one more handler call. */
  lemma FeedStep(s: State, events: seq<HtmlEvent>, e: HtmlEvent)
    ensures Feed(s, events + [e]) == Handle(Feed(s, events), e)
  {
    assert (events + [e])[..|events|] == events;
  }

  /** Feeding two streams one after the other is feeding them joined. */
  lemma {:induction false} FeedConcat(s: State, a: seq<HtmlEvent>, b: seq<HtmlEvent>)
    ensures Feed(s, a + b) == Feed(Feed(s, a), b)
    decreases |b|
  {
    if b == [] {
      assert a + b == a;
    } else {
      var b0 := b[..|b| - 1];
      var e := b[|b| - 1];
      assert a + b == (a + b0) + [e];
      assert b == b0 + [e];
      FeedConcat(s, a, b0);
      FeedStep(s, a + b0, e);
      FeedStep(Feed(s, a), b0, e);
    }
  }

  /** The event at index i is data that arrived while no skipped element
      was open, and tok is its stripped text. */
  predicate VisibleAt(s: State, events: seq<HtmlEvent>, i: int, tok: string)
  {
    0 <= i < |events| && events[i].Data? && Feed(s, events[..i]).skipDepth == 0
    && tok == Strip(events[i].text)
  }

  /** tok is the stripped text of a data event of `events` that arrived
      while no skipped element was open. */
  ghost predicate VisibleData(s: State, events: seq<HtmlEvent>, tok: string)
  {
    exists i :: VisibleAt(s, events, i, tok)
  }

  lemma VisibleDataExtends(s: State, events: seq<HtmlEvent>, e: HtmlEvent, tok: string)
    requires VisibleData(s, events, tok)
    ensures VisibleData(s, events + [e], tok)
  {
    var i :| VisibleAt(s, events, i, tok);
    VisibleAtExtends(s, events, e, i, tok);
  }

  lemma VisibleAtExtends(s: State, events: seq<HtmlEvent>, e: HtmlEvent, i: int, tok: string)
    requires VisibleAt(s, events, i, tok)
    ensures VisibleAt(s, events + [e], i, tok)
  {
    assert (events + [e])[..i] == events[..i];
  }

  lemma VisibleDataLast(s: State, events: seq<HtmlEvent>, d: string)
    requires Feed(s, events).skipDepth == 0
    ensures VisibleData(s, events + [Data(d)], Strip(d))
  {
    assert (events + [Data(d)])[..|events|] == events;
    assert VisibleAt(s, events + [Data(d)], |events|, Strip(d));
  }

  /** Data is recorded only outside skipped elements: every text token a
      feed adds is the stripped text of a data event that arrived while no
      script, style or noscript element was open. */
  lemma {:induction false} FeedRecordsOnlyVisibleData(s: State, events: seq<HtmlEvent>)
    ensures var t := Feed(s, events).tokens;
      |s.tokens| <= |t| && t[..|s.tokens|] == s.tokens && AddedVisible(s, events, t)
    decreases |events|
  {
    if events != [] {
      var init := events[..|events| - 1];
      var e := events[|events| - 1];
      assert events == init + [e];
      FeedRecordsOnlyVisibleData(s, init);
      AddedVisibleStep(s, init, e);
    }
  }

  /** Every token of t after those of s is a line marker or the stripped
      text of a visible data event of the stream, and is well formed. */
  ghost predicate AddedVisible(s: State, events: seq<HtmlEvent>, t: seq<string>)
  {
    forall j :: |s.tokens| <= j < |t| ==>
      WellFormedToken(t[j]) && (t[j] == LineMarker || VisibleData(s, events, t[j]))
  }

  /** One more event keeps the tokens of s in front and adds only visible
      data. */
  lemma AddedVisibleStep(s: State, init: seq<HtmlEvent>, e: HtmlEvent)
    requires var t := Feed(s, init).tokens;
      |s.tokens| <= |t| && t[..|s.tokens|] == s.tokens && AddedVisible(s, init, t)
    ensures var t := Feed(s, init + [e]).tokens;
      |s.tokens| <= |t| && t[..|s.tokens|] == s.tokens && AddedVisible(s, init + [e], t)
  {
    var prev := Feed(s, init);
    HandleAppends(prev, e);
    FeedStep(s, init, e);
    var t := Feed(s, init + [e]).tokens;
    assert t[..|s.tokens|] == prev.tokens[..|s.tokens|];
    forall j | |s.tokens| <= j < |t|
      ensures WellFormedToken(t[j]) && (t[j] == LineMarker || VisibleData(s, init + [e], t[j]))
    {
      if j < |prev.tokens| {
        assert t[j] == prev.tokens[j];
        if t[j] != LineMarker {
          VisibleDataExtends(s, init, e, t[j]);
        }
      } else if t[j] != LineMarker {
        assert e.Data? && prev.skipDepth == 0 && t[j] == Strip(e.text);
        VisibleDataLast(s, init, e.text);
      }
    }
  }

  /** Data inside a skipped element changes nothing. */
  lemma SkippedDataIgnored(s: State, d: string)
    requires s.skipDepth > 0
    ensures Handle(s, Data(d)) == s
  {
  }

  /** An end tag of a skipped element with none open is ignored, so the
      depth never goes below zero. */
  lemma UnmatchedSkipEndIgnored(s: State, t: string)
    requires IsSkipTag(t) && s.skipDepth == 0
    ensures Handle(s, EndTag(t)) == s
  {
  }

  /** A script (or style, or noscript) element holding only text leaves
      the extractor as it was. */
  lemma SkippedElementLeavesNoTrace(s: State, t: string, d: string)
    requires IsSkipTag(t)
    ensures Feed(s, [StartTag(t), Data(d), EndTag(t)]) == s
  {
    FeedStep(s, [], StartTag(t));
    FeedStep(s, [StartTag(t)], Data(d));
    FeedStep(s, [StartTag(t), Data(d)], EndTag(t));
    assert [] + [StartTag(t)] == [StartTag(t)];
    assert [StartTag(t)] + [Data(d)] == [StartTag(t), Data(d)];
    assert [StartTag(t), Data(d)] + [EndTag(t)] == [StartTag(t), Data(d), EndTag(t)];
  }

  // ---------------------------------------------------------------------
  // get_text

  /** The loop state of get_text: the lines finished so far and the tokens
      of the line being collected. */
  datatype Assembly = Assembly(lines: seq<string>, current: seq<string>)

  /** A collected run of tokens as one line: joined by single spaces, stripped. */
  function LineOf(run: seq<string>): string
  {
    Strip(Join(" ", run))
  }

  /** One iteration of get_text's loop: a marker closes the open run, if
      any; any other token joins it. */
  function ScanStep(a: Assembly, t: string): Assembly
  {
    if t == LineMarker then
      (if a.current != [] then Assembly(a.lines + [LineOf(a.current)], []) else a)
    else a.(current := a.current + [t])
  }

  /** The loop of get_text over a token buffer. */
  function Scan(tokens: seq<string>): Assembly
    decreases |tokens|
  {
    if tokens == [] then Assembly([], [])
    else ScanStep(Scan(tokens[..|tokens| - 1]), tokens[|tokens| - 1])
  }

  lemma ScanSnoc(tokens: seq<string>, t: string)
    ensures Scan(tokens + [t]) == ScanStep(Scan(tokens), t)
  {
    assert (tokens + [t])[..|tokens|] == tokens;
  }

  /** One more token of a buffer is one more loop step. */
  lemma ScanPrefix(buffer: seq<string>, i: nat)
    requires i < |buffer|
    ensures Scan(buffer[..i + 1]) == ScanStep(Scan(buffer[..i]), buffer[i])
  {
    assert buffer[..i + 1] == buffer[..i] + [buffer[i]];
    ScanSnoc(buffer[..i], buffer[i]);
  }

  /** The lines once the last run is closed. */
  function Lines(tokens: seq<string>): seq<string>
  {
    var a := Scan(tokens);
    a.lines + (if a.current != [] then [LineOf(a.current)] else [])
  }

  function NonEmpty(lines: seq<string>): (r: seq<string>)
    ensures forall k :: 0 <= k < |r| ==> r[k] != ""
    decreases |lines|
  {
    if lines == [] then []
    else NonEmpty(lines[..|lines| - 1]) + (if lines[|lines| - 1] != "" then [lines[|lines| - 1]] else [])
  }

  /** get_text's result for a token buffer. */
  function TextOf(tokens: seq<string>): string
  {
    Join("\n", NonEmpty(Lines(tokens)))
  }

  /** Every line get_text produces has no whitespace at either end. */
  lemma {:induction false} ScanTrimmed(tokens: seq<string>)
    ensures forall k :: 0 <= k < |Scan(tokens).lines| ==> TrimmedEnds(Scan(tokens).lines[k])
    decreases |tokens|
  {
    if tokens != [] {
      var a := Scan(tokens[..|tokens| - 1]);
      ScanTrimmed(tokens[..|tokens| - 1]);
      if a.current != [] {
        StripTrimmed(Join(" ", a.current));
      }
    }
  }

  lemma {:induction false} NonEmptyKeeps(lines: seq<string>)
    requires forall k :: 0 <= k < |lines| ==> TrimmedEnds(lines[k])
    ensures forall k :: 0 <= k < |NonEmpty(lines)| ==> TrimmedEnds(NonEmpty(lines)[k])
    decreases |lines|
  {
    if lines != [] {
      NonEmptyKeeps(lines[..|lines| - 1]);
    }
  }

  /** The text get_text returns has no whitespace at either end, for any
      buffer. */
  lemma TextTrimmed(tokens: seq<string>)
    ensures TrimmedEnds(TextOf(tokens))
  {
    var a := Scan(tokens);
    ScanTrimmed(tokens);
    if a.current != [] {
      StripTrimmed(Join(" ", a.current));
    }
    var ls := Lines(tokens);
    assert forall k :: 0 <= k < |ls| ==> TrimmedEnds(ls[k]);
    NonEmptyKeeps(ls);
    JoinTrimmed("\n", NonEmpty(ls));
  }

  lemma FeedTwo(s: State, e1: HtmlEvent, e2: HtmlEvent)
    ensures Feed(s, [e1, e2]) == Handle(Handle(s, e1), e2)
  {
    FeedStep(s, [], e1);
    FeedStep(s, [e1], e2);
    assert [] + [e1] == [e1];
    assert [e1] + [e2] == [e1, e2];
  }

  lemma FeedThree(s: State, e1: HtmlEvent, e2: HtmlEvent, e3: HtmlEvent)
    ensures Feed(s, [e1, e2, e3]) == Handle(Handle(Handle(s, e1), e2), e3)
  {
    FeedTwo(s, e1, e2);
    FeedStep(s, [e1, e2], e3);
    assert [e1, e2] + [e3] == [e1, e2, e3];
  }

  /** A paragraph holding trimmed text is one line between two markers. */
  lemma ParagraphTokens(s: State, d: string)
    requires s.skipDepth == 0 && d != "" && TrimmedEnds(d)
    ensures Feed(s, [StartTag("p"), Data(d), EndTag("p")]) == s.(tokens := s.tokens + [LineMarker, d, LineMarker])
  {
    StripOfTrimmed(d);
    FeedThree(s, StartTag("p"), Data(d), EndTag("p"));
  }

  /** A top-level heading opens a line but does not close one. */
  lemma HeadingTokens(s: State, d: string)
    requires s.skipDepth == 0 && d != "" && TrimmedEnds(d)
    ensures Feed(s, [StartTag("h1"), Data(d), EndTag("h1")]) == s.(tokens := s.tokens + [LineMarker, d])
  {
    StripOfTrimmed(d);
    FeedThree(s, StartTag("h1"), Data(d), EndTag("h1"));
  }

  /** A text token joins the open run. */
  lemma ScanText(tokens: seq<string>, t: string)
    requires t != LineMarker
    ensures Scan(tokens + [t]).lines == Scan(tokens).lines
    ensures Scan(tokens + [t]).current == Scan(tokens).current + [t]
  {
    ScanSnoc(tokens, t);
  }

  /** No token of `run` is a line marker. */
  predicate MarkerFree(run: seq<string>)
  {
    forall k :: 0 <= k < |run| ==> run[k] != LineMarker
  }

  lemma MarkerFreePrefix(run: seq<string>)
    requires run != [] && MarkerFree(run)
    ensures MarkerFree(run[..|run| - 1]) && run[|run| - 1] != LineMarker
  {
    var init := run[..|run| - 1];
    forall k | 0 <= k < |init| ensures init[k] != LineMarker {
      assert init[k] == run[k];
    }
  }

  /** A run of text tokens with no marker only extends the open line. */
  lemma {:induction false} ScanRun(tokens: seq<string>, run: seq<string>)
    requires MarkerFree(run)
    ensures Scan(tokens + run).lines == Scan(tokens).lines
    ensures Scan(tokens + run).current == Scan(tokens).current + run
    decreases |run|
  {
    if run == [] {
      assert tokens + run == tokens;
    } else {
      var init, t := run[..|run| - 1], run[|run| - 1];
      MarkerFreePrefix(run);
      ScanRun(tokens, init);
      ScanRunStep(tokens, init, t, run);
    }
  }

  lemma ScanRunStep(tokens: seq<string>, init: seq<string>, t: string, run: seq<string>)
    requires t != LineMarker && run == init + [t]
    requires Scan(tokens + init).lines == Scan(tokens).lines
    requires Scan(tokens + init).current == Scan(tokens).current + init
    ensures Scan(tokens + run).lines == Scan(tokens).lines
    ensures Scan(tokens + run).current == Scan(tokens).current + run
  {
    var x := tokens + init;
    assert tokens + run == x + [t];
    ScanText(x, t);
    var c := Scan(tokens).current;
    assert (c + init) + [t] == c + run;
  }

  /** A marker closes the open line, if there is one. */
  lemma MarkerClosesLine(tokens: seq<string>)
    ensures Scan(tokens + [LineMarker]) == Assembly(Lines(tokens), [])
  {
    ScanSnoc(tokens, LineMarker);
  }

  /** A marker-free run after a marker becomes one line of its own, its
      tokens joined by single spaces. */
  lemma RunAfterMarker(tokens: seq<string>, run: seq<string>)
    requires run != [] && MarkerFree(run)
    ensures Lines(tokens + [LineMarker] + run) == Lines(tokens) + [LineOf(run)]
  {
    var m := tokens + [LineMarker];
    MarkerClosesLine(tokens);
    ScanRun(m, run);
    var a := Scan(m + run);
    assert a.lines == Lines(tokens) && a.current == run;
  }

  /** Lines(tokens) with one more marker: nothing is added. */
  lemma MarkerAddsNoLine(tokens: seq<string>)
    ensures Lines(tokens + [LineMarker]) == Lines(tokens)
  {
    MarkerClosesLine(tokens);
  }

  /** A text token that is well formed is a line by itself. */
  lemma SingleTokenLine(a: string)
    requires a != "" && TrimmedEnds(a)
    ensures LineOf([a]) == a && MarkerFree([a])
  {
    StripOfTrimmed(a);
    LineBreakIsSpace('\n');
  }

  /** A marker followed by one well-formed text token adds that token as a line. */
  lemma TokenAfterMarker(tokens: seq<string>, a: string)
    requires a != "" && TrimmedEnds(a)
    ensures Lines(tokens + [LineMarker, a]) == Lines(tokens) + [a]
  {
    SingleTokenLine(a);
    assert tokens + [LineMarker, a] == tokens + [LineMarker] + [a];
    RunAfterMarker(tokens, [a]);
  }

  /** A paragraph's tokens (marker, text, marker) add its text as one line. */
  lemma ParagraphAddsLine(tokens: seq<string>, d: string)
    requires d != "" && TrimmedEnds(d)
    ensures Lines(tokens + [LineMarker, d, LineMarker]) == Lines(tokens) + [d]
  {
    TokenAfterMarker(tokens, d);
    MarkerAddsNoLine(tokens + [LineMarker, d]);
    assert tokens + [LineMarker, d] + [LineMarker] == tokens + [LineMarker, d, LineMarker];
  }

  /** The buffer of a heading, then a paragraph, then a script (which leaves
      nothing), then a second paragraph splits into the three texts. */
  lemma HeadingAndParagraphsLines(a: string, b: string, c: string)
    requires a != "" && TrimmedEnds(a) && b != "" && TrimmedEnds(b) && c != "" && TrimmedEnds(c)
    ensures Lines([LineMarker, a] + [LineMarker, b, LineMarker] + [LineMarker, c, LineMarker]) == [a, b, c]
  {
    var t0: seq<string> := [];
    assert Lines(t0) == [];
    TokenAfterMarker(t0, a);
    assert t0 + [LineMarker, a] == [LineMarker, a];
    ParagraphAddsLine([LineMarker, a], b);
    ParagraphAddsLine([LineMarker, a] + [LineMarker, b, LineMarker], c);
  }

  lemma NonEmptyThree(a: string, b: string, c: string)
    requires a != "" && b != "" && c != ""
    ensures NonEmpty([a, b, c]) == [a, b, c]
  {
    assert [a][..0] == [];
    assert NonEmpty([a]) == [a];
    assert [a, b][..1] == [a];
    assert NonEmpty([a, b]) == [a, b];
    assert [a, b, c][..2] == [a, b];
  }

  /** The same buffer's text: the three texts on three lines. */
  lemma HeadingAndParagraphsText(a: string, b: string, c: string)
    requires a != "" && TrimmedEnds(a) && b != "" && TrimmedEnds(b) && c != "" && TrimmedEnds(c)
    ensures TextOf([LineMarker, a] + [LineMarker, b, LineMarker] + [LineMarker, c, LineMarker]) == a + "\n" + b + "\n" + c
  {
    HeadingAndParagraphsLines(a, b, c);
    NonEmptyThree(a, b, c);
    JoinThree("\n", a, b, c);
  }

  lemma JoinThree(sep: string, a: string, b: string, c: string)
    ensures Join(sep, [a, b, c]) == a + sep + b + sep + c
  {
    assert [a, b, c][1..] == [b, c];
    assert [b, c][1..] == [c];
    assert Join(sep, [b, c]) == b + sep + c;
    assert a + sep + (b + sep + c) == a + sep + b + sep + c;
  }

  /** Tags of no interest to the extractor (html, head, body) change nothing. */
  lemma IgnoredTag(s: State, t: string)
    requires !IsSkipTag(t) && !OpensLine(t) && !ClosesLine(t)
    ensures Handle(s, StartTag(t)) == s && Handle(s, EndTag(t)) == s
  {
  }

  /** The events of a page: a head holding a style sheet, a top-level
      heading, a paragraph, a script and a second paragraph. */
  function PageEvents(title: string, css: string, first: string, js: string, second: string): seq<HtmlEvent>
  {
    [StartTag("html"), StartTag("head"), StartTag("style"), Data(css), EndTag("style"), EndTag("head"), StartTag("body")]
    + [StartTag("h1"), Data(title), EndTag("h1")]
    + [StartTag("p"), Data(first), EndTag("p")]
    + [StartTag("script"), Data(js), EndTag("script")]
    + [StartTag("p"), Data(second), EndTag("p")]
    + [EndTag("body"), EndTag("html")]
  }

  /** The head of the page, style sheet included, leaves nothing behind. */
  lemma PageHeadLeavesNothing(css: string)
    ensures Feed(Initial, [StartTag("html"), StartTag("head"), StartTag("style"), Data(css),
      EndTag("style"), EndTag("head"), StartTag("body")]) == Initial
  {
    var open := [StartTag("html"), StartTag("head")];
    var style := [StartTag("style"), Data(css), EndTag("style")];
    var close := [EndTag("head"), StartTag("body")];
    assert open + style + close
      == [StartTag("html"), StartTag("head"), StartTag("style"), Data(css), EndTag("style"), EndTag("head"), StartTag("body")];
    IgnoredTag(Initial, "html");
    IgnoredTag(Initial, "head");
    IgnoredTag(Initial, "body");
    FeedTwo(Initial, StartTag("html"), StartTag("head"));
    SkippedElementLeavesNoTrace(Initial, "style", css);
    FeedTwo(Initial, EndTag("head"), StartTag("body"));
    FeedConcat(Initial, open, style);
    FeedConcat(Initial, open + style, close);
  }

  /** Closing body and html leaves the extractor as it was. */
  lemma PageTailLeavesNothing(s: State)
    ensures Feed(s, [EndTag("body"), EndTag("html")]) == s
  {
    IgnoredTag(s, "body");
    IgnoredTag(s, "html");
    FeedTwo(s, EndTag("body"), EndTag("html"));
  }

  /** The page's buffer: the heading opens a line, each paragraph is a line
      between two markers, and the style sheet and the script leave nothing. */
  lemma PageTokens(title: string, css: string, first: string, js: string, second: string)
    requires title != "" && TrimmedEnds(title) && first != "" && TrimmedEnds(first)
    requires second != "" && TrimmedEnds(second)
    ensures Feed(Initial, PageEvents(title, css, first, js, second)).tokens
      == [LineMarker, title] + [LineMarker, first, LineMarker] + [LineMarker, second, LineMarker]
  {
    var head := [StartTag("html"), StartTag("head"), StartTag("style"), Data(css), EndTag("style"), EndTag("head"), StartTag("body")];
    var h := [StartTag("h1"), Data(title), EndTag("h1")];
    var p1 := [StartTag("p"), Data(first), EndTag("p")];
    var sc := [StartTag("script"), Data(js), EndTag("script")];
    var p2 := [StartTag("p"), Data(second), EndTag("p")];
    var tail := [EndTag("body"), EndTag("html")];
    PageHeadLeavesNothing(css);
    FeedConcat(Initial, head, h);
    HeadingTokens(Initial, title);
    var s1 := Feed(Initial, head + h);
    assert s1 == State([LineMarker, title], 0);
    FeedConcat(Initial, head + h, p1);
    ParagraphTokens(s1, first);
    var s2 := Feed(Initial, head + h + p1);
    FeedConcat(Initial, head + h + p1, sc);
    SkippedElementLeavesNoTrace(s2, "script", js);
    FeedConcat(Initial, head + h + p1 + sc, p2);
    ParagraphTokens(s2, second);
    var s3 := Feed(Initial, head + h + p1 + sc + p2);
    FeedConcat(Initial, head + h + p1 + sc + p2, tail);
    PageTailLeavesNothing(s3);
  }

  /** The page reads as its heading and its two paragraphs, one per line,
      with the style sheet and the script gone. */
  lemma PageText(title: string, css: string, first: string, js: string, second: string)
    requires title != "" && TrimmedEnds(title) && first != "" && TrimmedEnds(first)
    requires second != "" && TrimmedEnds(second)
    ensures TextOf(Feed(Initial, PageEvents(title, css, first, js, second)).tokens)
      == title + "\n" + first + "\n" + second
  {
    PageTokens(title, css, first, js, second);
    HeadingAndParagraphsText(title, first, second);
  }

  // ---------------------------------------------------------------------
  // The extractor

  class HtmlTextExtractor {
    var tokens: seq<string>
    var skipDepth: nat

    function Current(): State
      reads this
    {
      State(tokens, skipDepth)
    }

    constructor()
      ensures Current() == Initial
    {
      tokens := [];
      skipDepth := 0;
    }

    method HandleStartTag(tag: string)
      modifies this
      ensures Current() == Handle(old(Current()), StartTag(tag))
    {
      if IsSkipTag(tag) {
        skipDepth := skipDepth + 1;
      } else if OpensLine(tag) {
        tokens := tokens + [LineMarker];
      }
    }

    method HandleEndTag(tag: string)
      modifies this
      ensures Current() == Handle(old(Current()), EndTag(tag))
    {
      if IsSkipTag(tag) && skipDepth > 0 {
        skipDepth := skipDepth - 1;
      } else if ClosesLine(tag) {
        tokens := tokens + [LineMarker];
      }
    }

    method HandleData(data: string)
      modifies this
      ensures Current() == Handle(old(Current()), Data(data))
    {
      if skipDepth > 0 {
        return;
      }
      var stripped := Strip(data);
      if stripped != "" {
        tokens := tokens + [stripped];
      }
    }

    /** feed(): every event dispatched to its handler, in order. */
    method FeedEvents(events: seq<HtmlEvent>)
      modifies this
      ensures Current() == Feed(old(Current()), events)
    {
      for i := 0 to |events|
        invariant Current() == Feed(old(Current()), events[..i])
      {
        assert events[..i + 1][..i] == events[..i];
        match events[i] {
          case StartTag(t) => HandleStartTag(t);
          case EndTag(t) => HandleEndTag(t);
          case Data(d) => HandleData(d);
        }
      }
      assert events[..|events|] == events;
    }

    /** get_text. */
    method GetText() returns (text: string)
      ensures text == TextOf(tokens)
    {
      var buffer := tokens;
      var lines: seq<string> := [];
      var current: seq<string> := [];
      for i := 0 to |buffer|
        invariant Assembly(lines, current) == Scan(buffer[..i])
      {
        ScanPrefix(buffer, i);
        var token := buffer[i];
        if token == LineMarker {
          if current != [] {
            lines := lines + [LineOf(current)];
            current := [];
          }
        } else {
          current := current + [token];
        }
      }
      assert buffer[..|buffer|] == buffer;
      if current != [] {
        lines := lines + [LineOf(current)];
      }
      assert lines == Lines(buffer);
      text := Join("\n", NonEmpty(lines));
    }
  }
}
