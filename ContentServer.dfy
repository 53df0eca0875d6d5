/** The text-processing helpers of the content tool server
    (mcp-server/content_mcp.py): _normalise_text, the limit, dispatch and
    truncation rules of read_file, the .doc fallbacks, and the scheme,
    timeout and truncation rules of fetch_web_content.

    Reading files, running textract, python-docx or pdfminer, and the HTTP
    request are not modelled: what they would produce is given to the model
    as values (FileEntry, Extractions, DocFile, and the `net` function). */
module ContentServer {
  import opened Wrappers
  import opened Text
  import opened HtmlExtractor

  // ---------------------------------------------------------------------
  // _normalise_text

  /** text.replace("\r\n", "\n"), scanning left to right. */
  function ReplaceCrlf(s: string): (r: string)
    ensures |r| <= |s|
    decreases |s|
  {
    if |s| == 0 then ""
    else if |s| >= 2 && s[0] == '\r' && s[1] == '\n' then "\n" + ReplaceCrlf(s[2..])
    else [s[0]] + ReplaceCrlf(s[1..])
  }

  /** .replace("\r", "\n"). */
  function ReplaceCr(s: string): (r: string)
    ensures |r| == |s|
    ensures forall i :: 0 <= i < |s| ==> r[i] == (if s[i] == '\r' then '\n' else s[i])
    decreases |s|
  {
    if |s| == 0 then "" else [if s[0] == '\r' then '\n' else s[0]] + ReplaceCr(s[1..])
  }

  predicate NoLineBreak(l: string)
  {
    forall i :: 0 <= i < |l| ==> !IsLineBreak(l[i])
  }

  /** The pieces between line breaks, a "\r\n" pair counting as one break:
      one more piece than there are breaks. */
  function Pieces(s: string): (r: seq<string>)
    ensures |r| > 0
    ensures forall k :: 0 <= k < |r| ==> NoLineBreak(r[k])
    decreases |s|
  {
    if |s| == 0 then [""]
    else if |s| >= 2 && s[0] == '\r' && s[1] == '\n' then [""] + Pieces(s[2..])
    else if IsLineBreak(s[0]) then [""] + Pieces(s[1..])
    else
      var p := Pieces(s[1..]);
      [[s[0]] + p[0]] + p[1..]
  }

  /** str.splitlines(): the pieces, without the empty one that follows a
      final line break; the empty string has no lines. */
  function SplitLines(s: string): (r: seq<string>)
    ensures forall k :: 0 <= k < |r| ==> NoLineBreak(r[k])
  {
    if |s| == 0 then []
    else if IsLineBreak(s[|s| - 1]) then Pieces(s)[..|Pieces(s)| - 1]
    else Pieces(s)
  }

  /** [line.rstrip() for line in lines], keeping only the non-empty ones. */
  function KeptLines(lines: seq<string>): (r: seq<string>)
    ensures |r| <= |lines|
    ensures (forall k :: 0 <= k < |lines| ==> NoLineBreak(lines[k])) ==>
              forall k :: 0 <= k < |r| ==> SolidLine(r[k])
    decreases |lines|
  {
    if |lines| == 0 then []
    else
      var l := RStrip(lines[|lines| - 1]);
      KeptLines(lines[..|lines| - 1]) + (if l != "" then [l] else [])
  }

  /** _normalise_text. */
  function Normalise(text: string): string
  {
    Strip(Join("\n", KeptLines(SplitLines(ReplaceCr(ReplaceCrlf(text))))))
  }

  /** The normalised text has no carriage return or other line break but
      '\n', no empty line, no whitespace before a line break, and no
      whitespace at either end. */
  lemma NormaliseTidy(text: string)
    ensures var r := Normalise(text);
      TidyLines(r) && OnlyNewlineBreaks(r) && TrimmedEnds(r)
      && (forall i :: 0 <= i < |r| ==> r[i] != '\r')
      && (forall i :: 0 <= i < |r| - 1 ==> !(r[i] == '\n' && r[i + 1] == '\n'))
  {
    var lines := KeptLines(SplitLines(ReplaceCr(ReplaceCrlf(text))));
    JoinSolidLines(lines);
    StripTidy(Join("\n", lines));
  }

  lemma {:induction false} NoCarriageReturnUnchanged(s: string)
    requires forall i :: 0 <= i < |s| ==> s[i] != '\r'
    ensures ReplaceCrlf(s) == s && ReplaceCr(s) == s
    decreases |s|
  {
    if |s| > 0 {
      NoCarriageReturnUnchanged(s[1..]);
      assert s == [s[0]] + s[1..];
    }
  }

  /** The index of the first line break, or |s| when there is none. */
  function FirstBreak(s: string): (i: nat)
    ensures i <= |s| && NoLineBreak(s[..i]) && (i < |s| ==> IsLineBreak(s[i]))
    decreases |s|
  {
    if |s| == 0 || IsLineBreak(s[0]) then 0 else 1 + FirstBreak(s[1..])
  }

  /** The first piece runs up to the first '\n'. */
  lemma {:induction false} PiecesAtFirstBreak(s: string)
    requires OnlyNewlineBreaks(s)
    ensures var i := FirstBreak(s);
      (i == |s| ==> Pieces(s) == [s])
      && (i < |s| ==> Pieces(s) == [s[..i]] + Pieces(s[i + 1..]))
    decreases |s|
  {
    if |s| > 0 && !IsLineBreak(s[0]) {
      var t := s[1..];
      assert OnlyNewlineBreaks(t) by {
        forall j | 0 <= j < |t| && IsLineBreak(t[j]) ensures t[j] == '\n' {
          assert t[j] == s[j + 1];
        }
      }
      PiecesAtFirstBreak(t);
      var i := FirstBreak(s);
      assert s == [s[0]] + t;
      assert s[..i] == [s[0]] + t[..i - 1];
      if i < |s| {
        assert s[i + 1..] == t[i..];
      }
    }
  }

  /** What follows a line break of tidy text is tidy. */
  lemma TidyAfterBreak(s: string, i: nat)
    requires TidyLines(s) && OnlyNewlineBreaks(s) && i < |s| && s[i] == '\n'
    ensures TidyLines(s[i + 1..]) && OnlyNewlineBreaks(s[i + 1..])
  {
    var t := s[i + 1..];
    forall j | 0 <= j < |t| && t[j] == '\n'
      ensures 0 < j < |t| - 1 && !IsSpace(t[j - 1]) && t[j + 1] != '\n'
    {
      assert t[j] == s[i + 1 + j];
      assert s[i + 1] == t[0];
      if j > 0 {
        assert t[j - 1] == s[i + j];
      }
      assert t[j + 1] == s[i + 2 + j];
    }
    forall j | 0 <= j < |t| && IsLineBreak(t[j]) ensures t[j] == '\n' {
      assert t[j] == s[i + 1 + j];
    }
  }

  /** Tidy text ending in a non-space: non-empty, tidy, with '\n' as its
      only line break. */
  predicate TidyText(s: string)
  {
    |s| > 0 && TidyLines(s) && OnlyNewlineBreaks(s) && !IsSpace(s[|s| - 1])
  }

  /** The first line of tidy text with a line break is solid. */
  lemma TidyFirstLine(s: string)
    requires TidyText(s) && FirstBreak(s) < |s|
    ensures SolidLine(s[..FirstBreak(s)])
  {
    var i := FirstBreak(s);
    assert s[i] == '\n' by {
      PiecesAtFirstBreak(s);
    }
    var a := s[..i];
    assert a[|a| - 1] == s[i - 1];
  }

  /** What follows a line break of tidy text is tidy text. */
  lemma TidyRest(s: string, i: nat)
    requires TidyText(s) && i < |s| && s[i] == '\n'
    ensures TidyText(s[i + 1..])
  {
    TidyAfterBreak(s, i);
    var t := s[i + 1..];
    assert t[|t| - 1] == s[|s| - 1];
  }

  lemma SplitAround(s: string, i: nat)
    requires i < |s| && s[i] == '\n'
    ensures s == s[..i] + "\n" + s[i + 1..]
  {
  }

  /** Tidy text (as _normalise_text produces it, ignoring the leading
      whitespace of the first line) splits into solid lines that join back
      to it. */
  lemma {:induction false} TidyPieces(s: string)
    requires TidyText(s)
    ensures forall k :: 0 <= k < |Pieces(s)| ==> SolidLine(Pieces(s)[k])
    ensures Join("\n", Pieces(s)) == s
    decreases |s|
  {
    PiecesAtFirstBreak(s);
    var i := FirstBreak(s);
    if i == |s| {
      assert s[..i] == s;
    } else {
      assert s[i] == '\n';
      TidyFirstLine(s);
      TidyRest(s, i);
      SplitAround(s, i);
      var a := s[..i];
      var t := s[i + 1..];
      var ps := Pieces(t);
      TidyPieces(t);
      forall k | 0 <= k < |Pieces(s)| ensures SolidLine(Pieces(s)[k]) {
        if k > 0 {
          assert Pieces(s)[k] == ps[k - 1];
        }
      }
      JoinCons("\n", a, ps);
    }
  }

  lemma JoinCons(sep: string, a: string, ps: seq<string>)
    requires |ps| > 0
    ensures Join(sep, [a] + ps) == a + sep + Join(sep, ps)
  {
    assert ([a] + ps)[1..] == ps;
  }

  lemma {:induction false} KeptSolidLines(lines: seq<string>)
    requires forall k :: 0 <= k < |lines| ==> SolidLine(lines[k])
    ensures KeptLines(lines) == lines
    decreases |lines|
  {
    if |lines| > 0 {
      var l := lines[|lines| - 1];
      KeptSolidLines(lines[..|lines| - 1]);
      assert RStrip(l) == l;
      assert lines == lines[..|lines| - 1] + [l];
    }
  }

  /** Text that is already normalised comes back unchanged: the file of
      two lines "Line 1\nLine 2" is returned as it is. */
  lemma NormaliseOfTidy(s: string)
    requires TidyLines(s) && OnlyNewlineBreaks(s) && TrimmedEnds(s)
    ensures Normalise(s) == s
  {
    assert forall i :: 0 <= i < |s| ==> s[i] != '\r' by {
      forall i | 0 <= i < |s| ensures s[i] != '\r' {
        if s[i] == '\r' {
          assert IsLineBreak(s[i]);
        }
      }
    }
    NoCarriageReturnUnchanged(s);
    if |s| > 0 {
      TidyPieces(s);
      KeptSolidLines(Pieces(s));
      StripOfTrimmed(s);
    }
  }

  /** Normalising twice is normalising once. */
  lemma NormaliseIdempotent(text: string)
    ensures Normalise(Normalise(text)) == Normalise(text)
  {
    NormaliseTidy(text);
    NormaliseOfTidy(Normalise(text));
  }

  // ---------------------------------------------------------------------
  // The .doc fallbacks

  /** The whitespace of bytes patterns and bytes.strip(): space, tab, line
      feed, vertical tab, form feed and carriage return. */
  predicate IsAsciiSpace(c: char)
  {
    c == ' ' || ('\t' <= c <= '\r')
  }

  function DropAsciiSpaces(s: string): (r: string)
    ensures |r| <= |s| && r == s[|s| - |r|..]
    ensures |r| > 0 ==> !IsAsciiSpace(r[0])
    decreases |s|
  {
    if |s| > 0 && IsAsciiSpace(s[0]) then DropAsciiSpaces(s[1..]) else s
  }

  /** re.sub(rb"\s+", b" ", chunk): every run of whitespace becomes one
      space. */
  function CollapseSpaces(s: string): (r: string)
    ensures |r| <= |s|
    ensures |r| > 0 && |s| > 0 ==> (r[0] == ' ' <==> IsAsciiSpace(s[0]))
    ensures forall i :: 0 <= i < |r| && IsAsciiSpace(r[i]) ==>
              r[i] == ' ' && (i + 1 < |r| ==> !IsAsciiSpace(r[i + 1]))
    decreases |s|
  {
    if |s| == 0 then ""
    else if IsAsciiSpace(s[0]) then " " + CollapseSpaces(DropAsciiSpaces(s[1..]))
    else [s[0]] + CollapseSpaces(s[1..])
  }

  /** bytes.rstrip(). */
  function AsciiRStrip(s: string): (r: string)
    ensures |r| <= |s| && r == s[..|r|]
    ensures |r| > 0 ==> !IsAsciiSpace(r[|r| - 1])
    decreases |s|
  {
    if |s| > 0 && IsAsciiSpace(s[|s| - 1]) then AsciiRStrip(s[..|s| - 1]) else s
  }

  /** bytes.strip(). */
  function AsciiStrip(s: string): string
  {
    DropAsciiSpaces(AsciiRStrip(s))
  }

  /** .replace("\x00", ""). */
  function RemoveNul(s: string): (r: string)
    ensures |r| <= |s|
    ensures forall i :: 0 <= i < |r| ==> r[i] != '\0'
    decreases |s|
  {
    if |s| == 0 then "" else (if s[0] == '\0' then "" else [s[0]]) + RemoveNul(s[1..])
  }

  /** The text kept for one printable chunk: whitespace runs collapsed, the
      ends trimmed, NUL characters removed. */
  function ChunkText(chunk: string): string
  {
    Strip(RemoveNul(AsciiStrip(CollapseSpaces(chunk))))
  }

  function ChunkTexts(chunks: seq<string>): (r: seq<string>)
    ensures |r| == |chunks| && forall i :: 0 <= i < |r| ==> r[i] == ChunkText(chunks[i])
  {
    seq(|chunks|, i requires 0 <= i < |chunks| => ChunkText(chunks[i]))
  }

  predicate NoDuplicates(xs: seq<string>)
  {
    forall i, j :: 0 <= i < j < |xs| ==> xs[i] != xs[j]
  }

  /** The non-empty texts, each at its first occurrence only. */
  function FirstOccurrences(texts: seq<string>): (r: seq<string>)
    ensures forall x :: x in r <==> x != "" && x in texts
    ensures NoDuplicates(r)
    decreases |texts|
  {
    if |texts| == 0 then []
    else
      var d := FirstOccurrences(texts[..|texts| - 1]);
      var x := texts[|texts| - 1];
      assert texts == texts[..|texts| - 1] + [x];
      if x == "" || x in d then d else d + [x]
  }

  /** Where x first occurs. */
  function FirstIndex(texts: seq<string>, x: string): (i: nat)
    requires x in texts
    ensures i < |texts| && texts[i] == x && x !in texts[..i]
  {
    if texts[0] == x then 0
    else
      assert texts == [texts[0]] + texts[1..];
      1 + FirstIndex(texts[1..], x)
  }

  lemma FirstIndexExtends(texts: seq<string>, y: string, x: string)
    requires x in texts
    ensures FirstIndex(texts + [y], x) == FirstIndex(texts, x)
  {
    var ext := texts + [y];
    var i := FirstIndex(texts, x);
    assert ext[..i] == texts[..i];
    assert ext[i] == x;
  }

  lemma FirstIndexOfNew(texts: seq<string>, x: string)
    requires x !in texts
    ensures FirstIndex(texts + [x], x) == |texts|
  {
  }

  predicate InFirstOccurrenceOrder(texts: seq<string>, r: seq<string>)
    requires forall x :: x in r ==> x in texts
  {
    forall i, j :: 0 <= i < j < |r| ==> FirstIndex(texts, r[i]) < FirstIndex(texts, r[j])
  }

  /** Appending a text keeps the order of those already kept. */
  lemma OrderExtends(texts: seq<string>, r: seq<string>, y: string)
    requires forall x :: x in r ==> x in texts
    requires InFirstOccurrenceOrder(texts, r)
    ensures InFirstOccurrenceOrder(texts + [y], r)
  {
    forall i, j | 0 <= i < j < |r| ensures FirstIndex(texts + [y], r[i]) < FirstIndex(texts + [y], r[j]) {
      assert r[i] in r && r[j] in r;
      FirstIndexExtends(texts, y, r[i]);
      FirstIndexExtends(texts, y, r[j]);
    }
  }

  /** A text new to the stream goes after every text kept so far. */
  lemma OrderAppendNew(texts: seq<string>, r: seq<string>, x: string)
    requires forall z :: z in r ==> z in texts
    requires InFirstOccurrenceOrder(texts + [x], r) && x !in texts
    ensures InFirstOccurrenceOrder(texts + [x], r + [x])
  {
    var r2 := r + [x];
    FirstIndexOfNew(texts, x);
    forall i, j | 0 <= i < j < |r2| ensures FirstIndex(texts + [x], r2[i]) < FirstIndex(texts + [x], r2[j]) {
      assert r2[i] == r[i] && r[i] in r;
      FirstIndexExtends(texts, x, r[i]);
      if j < |r| {
        assert r2[j] == r[j];
      }
    }
  }

  /** The texts come out in the order of their first occurrence. */
  lemma {:induction false} FirstOccurrenceOrder(texts: seq<string>)
    ensures InFirstOccurrenceOrder(texts, FirstOccurrences(texts))
    decreases |texts|
  {
    if |texts| > 0 {
      var init := texts[..|texts| - 1];
      var x := texts[|texts| - 1];
      assert texts == init + [x];
      var d := FirstOccurrences(init);
      FirstOccurrenceOrder(init);
      OrderExtends(init, d, x);
      if x != "" && x !in d {
        OrderAppendNew(init, d, x);
      }
    }
  }

  /** What the .doc fallback sees of a file: its size in bytes, its runs of
      at least four printable ASCII, tab, newline or carriage-return bytes
      in order (read as latin-1), and its bytes read as UTF-16-LE with
      undecodable units dropped. */
  datatype DocFile = DocFile(size: nat, chunks: seq<string>, wideText: string)

  /** _extract_doc_basic. */
  function DocFallback(doc: DocFile): Option<string>
  {
    if doc.size == 0 then None
    else FirstNonEmpty(Strip(Join("\n", FirstOccurrences(ChunkTexts(doc.chunks)))), Strip(RemoveNul(doc.wideText)))
  }

  /** The printable-chunk candidate when it is non-empty, else the UTF-16
      candidate when that is, else nothing. */
  function FirstNonEmpty(candidate: string, wide: string): Option<string>
  {
    if candidate != "" then Some(candidate)
    else if wide != "" then Some(wide) else None
  }

  /** Both candidates are stripped, so whichever is chosen is trimmed. */
  lemma FirstNonEmptyTrimmed(a: string, b: string)
    ensures var r := FirstNonEmpty(Strip(a), Strip(b));
      r.Some? ==> r.value != "" && TrimmedEnds(r.value)
  {
    StripTrimmed(a);
    StripTrimmed(b);
  }

  lemma ChunkTextTrimmed(chunk: string)
    ensures TrimmedEnds(ChunkText(chunk))
  {
    StripTrimmed(RemoveNul(AsciiStrip(CollapseSpaces(chunk))));
  }

  lemma ChunkTextsTrimmed(chunks: seq<string>)
    ensures forall x :: x in FirstOccurrences(ChunkTexts(chunks)) ==> x != "" && TrimmedEnds(x)
  {
    var texts := ChunkTexts(chunks);
    forall x | x in texts ensures TrimmedEnds(x) {
      var i :| 0 <= i < |texts| && texts[i] == x;
      ChunkTextTrimmed(chunks[i]);
    }
  }

  /** Joining the distinct chunk texts gives text that needs no stripping. */
  lemma JoinedChunksTrimmed(chunks: seq<string>)
    ensures var r := FirstOccurrences(ChunkTexts(chunks));
      r != [] ==> Join("\n", r) != "" && Strip(Join("\n", r)) == Join("\n", r)
  {
    var r := FirstOccurrences(ChunkTexts(chunks));
    ChunkTextsTrimmed(chunks);
    assert forall k :: 0 <= k < |r| ==> r[k] != "" && TrimmedEnds(r[k]) by {
      forall k | 0 <= k < |r| ensures r[k] != "" && TrimmedEnds(r[k]) {
        assert r[k] in r;
      }
    }
    JoinTrimmed("\n", r);
    StripOfTrimmed(Join("\n", r));
  }

  /** When some chunk has text, the fallback returns the distinct chunk
      texts one per line, in first-occurrence order, and the UTF-16 reading
      is not used; an empty file gives nothing. */
  lemma DocFallbackPrefersChunks(doc: DocFile, i: int)
    requires 0 <= i < |doc.chunks| && ChunkText(doc.chunks[i]) != ""
    ensures doc.size == 0 ==> DocFallback(doc) == None
    ensures doc.size > 0 ==> DocFallback(doc) == Some(Join("\n", FirstOccurrences(ChunkTexts(doc.chunks))))
  {
    var texts := ChunkTexts(doc.chunks);
    assert texts[i] in texts;
    JoinedChunksTrimmed(doc.chunks);
  }

  lemma {:induction false} NothingKept(texts: seq<string>)
    requires forall i :: 0 <= i < |texts| ==> texts[i] == ""
    ensures FirstOccurrences(texts) == []
    decreases |texts|
  {
    if |texts| > 0 {
      NothingKept(texts[..|texts| - 1]);
    }
  }

  /** An empty file gives nothing, and a file none of whose chunks has text
      gives its UTF-16 reading. */
  lemma DocFallbackWithoutChunks(doc: DocFile)
    requires forall i :: 0 <= i < |doc.chunks| ==> ChunkText(doc.chunks[i]) == ""
    ensures doc.size == 0 ==> DocFallback(doc) == None
    ensures var wide := Strip(RemoveNul(doc.wideText));
      doc.size > 0 ==> DocFallback(doc) == (if wide != "" then Some(wide) else None)
  {
    NothingKept(ChunkTexts(doc.chunks));
    assert Join("\n", []) == "";
  }

  /** Whatever the fallback returns is non-empty and trimmed. */
  lemma DocFallbackTrimmed(doc: DocFile)
    ensures DocFallback(doc).Some? ==> DocFallback(doc).value != "" && TrimmedEnds(DocFallback(doc).value)
  {
    if doc.size > 0 {
      FirstNonEmptyTrimmed(Join("\n", FirstOccurrences(ChunkTexts(doc.chunks))), RemoveNul(doc.wideText));
    }
  }

  /** _extract_doc_with_textract: textract's decoded output, stripped, when
      it is non-empty; None when textract is missing or fails. */
  function TextractText(output: Option<string>): (r: Option<string>)
    ensures r.Some? <==> output.Some? && Strip(output.value) != ""
    ensures r.Some? ==> r.value == Strip(output.value)
  {
    if output.Some? && Strip(output.value) != "" then Some(Strip(output.value)) else None
  }

  const DocUnreadable := "Unable to extract text from .doc file. Install the 'textract' package for improved support."

  /** _read_doc_file: textract first, then the fallback; an error only when
      both give nothing. */
  function ReadDoc(textract: Option<string>, doc: DocFile): (r: Result<string, string>)
    ensures r.Err? <==> TextractText(textract).None? && DocFallback(doc).None?
    ensures r.Err? ==> r.error == DocUnreadable
    ensures TextractText(textract).Some? ==> r == Ok(TextractText(textract).value)
    ensures TextractText(textract).None? && DocFallback(doc).Some? ==> r == Ok(DocFallback(doc).value)
  {
    match TextractText(textract)
    case Some(t) => Ok(t)
    case None =>
      match DocFallback(doc)
      case Some(f) => Ok(f)
      case None => Err(DocUnreadable)
  }

  /** A .doc file that can be read gives non-empty text with no whitespace
      at either end. */
  lemma ReadDocTrimmed(textract: Option<string>, doc: DocFile)
    ensures ReadDoc(textract, doc).Ok? ==>
      ReadDoc(textract, doc).value != "" && TrimmedEnds(ReadDoc(textract, doc).value)
  {
    if textract.Some? {
      StripTrimmed(textract.value);
    }
    DocFallbackTrimmed(doc);
  }

  /** Keeping one more text: it is appended unless it is empty or already
      kept. */
  lemma FirstOccurrencesStep(texts: seq<string>, i: nat)
    requires i < |texts|
    ensures var d := FirstOccurrences(texts[..i]); var x := texts[i];
      FirstOccurrences(texts[..i + 1]) == if x == "" || x in d then d else d + [x]
  {
    assert texts[..i + 1][..i] == texts[..i];
  }

  /** The loop of _extract_doc_basic: one pass over the chunks with the set
      of texts already seen. */
  method DecodeChunks(chunks: seq<string>) returns (decodedLines: seq<string>)
    ensures decodedLines == FirstOccurrences(ChunkTexts(chunks))
  {
    ghost var texts := ChunkTexts(chunks);
    decodedLines := [];
    var seen: set<string> := {};
    for i := 0 to |chunks|
      invariant decodedLines == FirstOccurrences(texts[..i])
      invariant forall x :: x in seen <==> x in decodedLines
    {
      FirstOccurrencesStep(texts, i);
      var cleanedBytes := AsciiStrip(CollapseSpaces(chunks[i]));
      if cleanedBytes != "" {
        var text := Strip(RemoveNul(cleanedBytes));
        assert text == texts[i];
        if text != "" && text !in seen {
          seen := seen + {text};
          decodedLines := decodedLines + [text];
        }
      } else {
        assert texts[i] == "";
      }
    }
    assert texts[..|chunks|] == texts;
  }

  /** _extract_doc_basic. */
  method ExtractDocBasic(doc: DocFile) returns (r: Option<string>)
    ensures r == DocFallback(doc)
  {
    if doc.size == 0 {
      return None;
    }
    var decodedLines := DecodeChunks(doc.chunks);
    var candidate := Strip(Join("\n", decodedLines));
    if candidate != "" {
      return Some(candidate);
    }
    var unicodeCandidate := Strip(RemoveNul(doc.wideText));
    if unicodeCandidate != "" {
      return Some(unicodeCandidate);
    }
    return None;
  }

  /** _read_doc_file, calling the fallback only when textract gives
      nothing. */
  method ReadDocFile(textract: Option<string>, doc: DocFile) returns (r: Result<string, string>)
    ensures r == ReadDoc(textract, doc)
  {
    var textractText := TextractText(textract);
    if textractText.Some? {
      return Ok(textractText.value);
    }
    var fallbackText := ExtractDocBasic(doc);
    if fallbackText.Some? {
      return Ok(fallbackText.value);
    }
    return Err(DocUnreadable);
  }

  // ---------------------------------------------------------------------
  // read_file

  /** The final path component: everything after the last '/'. */
  function FinalComponent(path: string): (name: string)
    ensures IsSuffix(name, path)
    ensures forall i :: 0 <= i < |name| ==> name[i] != '/'
    decreases |path|
  {
    if |path| == 0 || path[|path| - 1] == '/' then ""
    else FinalComponent(path[..|path| - 1]) + [path[|path| - 1]]
  }

  /** str.rfind('.'): the last index of a dot, or -1. */
  function LastDot(name: string): (i: int)
    ensures -1 <= i < |name| && (i >= 0 ==> name[i] == '.')
    ensures forall j :: i < j < |name| ==> name[j] != '.'
    decreases |name|
  {
    if |name| == 0 then -1
    else if name[|name| - 1] == '.' then |name| - 1
    else LastDot(name[..|name| - 1])
  }

  /** Path.suffix: from the last dot of the final component, when that dot
      is neither its first nor its last character; otherwise empty. */
  function PathSuffix(path: string): (r: string)
    ensures r == "" || (|r| >= 2 && r[0] == '.' && IsSuffix(r, path)
                        && forall i :: 0 < i < |r| ==> r[i] != '.' && r[i] != '/')
  {
    var name := FinalComponent(path);
    var i := LastDot(name);
    if 0 < i < |name| - 1 then
      assert name[i..] == name[|name| - |name[i..]|..];
      assert path[|path| - |name|..][i..] == path[|path| - (|name| - i)..];
      name[i..]
    else ""
  }

  lemma {:induction false} FinalComponentExtends(base: string, ext: string)
    requires forall i :: 0 <= i < |ext| ==> ext[i] != '/'
    ensures FinalComponent(base + ext) == FinalComponent(base) + ext
    decreases |ext|
  {
    if |ext| > 0 {
      var init := ext[..|ext| - 1];
      var c := ext[|ext| - 1];
      var whole := base + ext;
      assert whole[|whole| - 1] == c && c != '/';
      assert whole[..|whole| - 1] == base + init;
      assert FinalComponent(whole) == FinalComponent(base + init) + [c];
      FinalComponentExtends(base, init);
      assert ext == init + [c];
    } else {
      assert base + ext == base;
    }
  }

  lemma {:induction false} LastDotBeforeExtension(name: string, ext: string)
    requires forall i :: 0 <= i < |ext| ==> ext[i] != '.'
    ensures LastDot(name + "." + ext) == |name|
    decreases |ext|
  {
    if |ext| > 0 {
      var init := ext[..|ext| - 1];
      assert (name + "." + ext)[..|name + "." + ext| - 1] == name + "." + init;
      LastDotBeforeExtension(name, init);
    } else {
      assert name + "." + ext == name + ".";
    }
  }

  /** A file named stem.ext, with a non-empty stem and extension, has the
      suffix ".ext". */
  lemma SuffixOfExtension(base: string, ext: string)
    requires |base| > 0 && base[|base| - 1] != '/'
    requires |ext| > 0 && forall i :: 0 <= i < |ext| ==> ext[i] != '.' && ext[i] != '/'
    ensures PathSuffix(base + "." + ext) == "." + ext
  {
    var tail := "." + ext;
    assert base + "." + ext == base + tail;
    FinalComponentExtends(base, tail);
    var stem := FinalComponent(base);
    assert stem == FinalComponent(base[..|base| - 1]) + [base[|base| - 1]];
    var name := stem + tail;
    assert name == stem + "." + ext;
    LastDotBeforeExtension(stem, ext);
    assert name[|stem|..] == tail;
  }

  /** The file readers read_file dispatches to. */
  datatype Reader = PlainText | WordXml | LegacyWord | PortableDocument

  const SupportedSuffixes: set<string> := {".txt", ".md", ".markdown", ".docx", ".doc", ".pdf"}

  /** The dispatch on the lower-cased suffix. */
  function ReaderFor(suffix: string): Option<Reader>
  {
    if suffix == ".txt" || suffix == ".md" || suffix == ".markdown" then Some(PlainText)
    else if suffix == ".docx" then Some(WordXml)
    else if suffix == ".doc" then Some(LegacyWord)
    else if suffix == ".pdf" then Some(PortableDocument)
    else None
  }

  /** Exactly the six supported suffixes have a reader; the three text
      suffixes share the plain-text one. */
  lemma ReaderForSupported(suffix: string)
    ensures ReaderFor(suffix).Some? <==> suffix in SupportedSuffixes
    ensures ReaderFor(suffix) == Some(PlainText) <==> suffix in {".txt", ".md", ".markdown"}
    ensures ReaderFor(suffix) == Some(LegacyWord) <==> suffix == ".doc"
  {
  }

  const MinReadLimit := 1
  const MaxReadLimit := 200000

  /** max(1, min(limit, 200_000)). */
  function ReadLimit(maxChars: int): (limit: int)
    ensures MinReadLimit <= limit <= MaxReadLimit
    ensures MinReadLimit <= maxChars <= MaxReadLimit ==> limit == maxChars
    ensures maxChars < MinReadLimit ==> limit == MinReadLimit
    ensures maxChars > MaxReadLimit ==> limit == MaxReadLimit
  {
    if maxChars < MinReadLimit then MinReadLimit
    else if maxChars > MaxReadLimit then MaxReadLimit
    else maxChars
  }

  const TruncationMarker := "\n\n...[truncated]"
  const NoTextualContent := "No textual content could be extracted from the file."

  /** The end of read_file: the fixed sentence for no text, the text when it
      fits, else its first `limit` characters and the marker. */
  function Deliver(cleaned: string, limit: int): string
    requires limit >= 1
  {
    if cleaned == "" then NoTextualContent
    else if |cleaned| <= limit then cleaned
    else cleaned[..limit] + TruncationMarker
  }

  /** What read_file returns is the fixed sentence, or the text, or a prefix
      of it of exactly `limit` characters followed by the marker; it is
      never longer than limit + 16 unless it is the sentence. */
  lemma DeliverShape(cleaned: string, limit: int)
    requires limit >= 1
    ensures var r := Deliver(cleaned, limit);
      (cleaned == "" ==> r == NoTextualContent)
      && (cleaned != "" ==> |r| <= limit + |TruncationMarker| && IsPrefix(PyPrefix(cleaned, limit), r))
      && (|cleaned| > limit ==> |r| == limit + 16 && IsSuffix(TruncationMarker, r))
  {
    var r := Deliver(cleaned, limit);
    if |cleaned| > limit {
      PrefixOfConcat(cleaned[..limit], TruncationMarker);
      SuffixOfConcat(cleaned[..limit], TruncationMarker);
    }
  }

  /** For normalised text, the result is the text itself exactly when it
      fits in the limit: a cut text followed by the marker would contain an
      empty line, which normalised text never has. */
  lemma DeliverWholeExactlyWhenFits(cleaned: string, limit: int)
    requires limit >= 1 && cleaned != "" && TidyLines(cleaned)
    ensures Deliver(cleaned, limit) == cleaned <==> |cleaned| <= limit
  {
    if |cleaned| > limit {
      var r := cleaned[..limit] + TruncationMarker;
      assert r[limit] == '\n' && r[limit + 1] == '\n';
      if cleaned[limit] == '\n' {
        assert limit + 1 < |cleaned| && cleaned[limit + 1] != '\n';
      }
      assert r != cleaned;
    }
  }

  /** What resolving the path finds: nothing, something that is not a
      regular file, or a regular file, each with the resolved path. */
  datatype FileEntry = Missing | NotAFile(resolved: string) | RegularFile(resolved: string)

  /** What each reader would produce for the file: the text, or the message
      of the exception it raises; textract's decoded output, or None when
      it is missing or fails; and what the .doc fallback sees. */
  datatype Extractions = Extractions(
    plain: Result<string, string>,
    wordXml: Result<string, string>,
    pdf: Result<string, string>,
    textract: Option<string>,
    doc: DocFile)

  /** FileNotFoundError, ValueError and RuntimeError, with their messages. */
  datatype FileError = FileNotFound(message: string) | InvalidPath(message: string) | ReadFailed(message: string)

  const UnsupportedFileType := "Unsupported file type. Supported extensions: .txt, .md, .markdown, .doc, .docx, .pdf"

  function RawText(reader: Reader, ex: Extractions): Result<string, string>
  {
    match reader
    case PlainText => ex.plain
    case WordXml => ex.wordXml
    case LegacyWord => ReadDoc(ex.textract, ex.doc)
    case PortableDocument => ex.pdf
  }

  /** The part of read_file after the dispatch: a reader's failure becomes
      a RuntimeError naming the file; its text is normalised and cut to the
      limit. */
  function AfterDispatch(filePath: string, raw: Result<string, string>, limit: int): Result<string, FileError>
    requires limit >= 1
  {
    match raw
    case Err(message) => Err(ReadFailed("Failed to read file " + filePath + ": " + message))
    case Ok(text) => Ok(Deliver(Normalise(text), limit))
  }

  /** read_file. Every failure inside the dispatch, the unsupported suffix
      included, is re-raised as a RuntimeError naming the file. */
  function ReadFile(filePath: string, maxChars: int, entry: FileEntry, ex: Extractions): Result<string, FileError>
  {
    match entry
    case Missing => Err(FileNotFound("File not found: " + filePath))
    case NotAFile(resolved) => Err(InvalidPath("Path does not point to a file: " + resolved))
    case RegularFile(resolved) => ReadRegular(filePath, ReaderFor(Lower(PathSuffix(resolved))), ReadLimit(maxChars), ex)
  }

  /** The dispatch of read_file once the path is known to be a file. */
  function ReadRegular(filePath: string, reader: Option<Reader>, limit: int, ex: Extractions): Result<string, FileError>
    requires limit >= 1
  {
    if reader.None? then Err(ReadFailed("Failed to read file " + filePath + ": " + UnsupportedFileType))
    else AfterDispatch(filePath, RawText(reader.value, ex), limit)
  }

  /** The error cases: a missing path, a path that is not a file, and an
      unsupported suffix, which fails as a RuntimeError rather than the
      ValueError raised inside the dispatch. */
  lemma ReadFileErrors(filePath: string, maxChars: int, entry: FileEntry, ex: Extractions)
    ensures entry.Missing? ==> ReadFile(filePath, maxChars, entry, ex) == Err(FileNotFound("File not found: " + filePath))
    ensures entry.NotAFile? ==>
      ReadFile(filePath, maxChars, entry, ex) == Err(InvalidPath("Path does not point to a file: " + entry.resolved))
    ensures entry.RegularFile? && Lower(PathSuffix(entry.resolved)) !in SupportedSuffixes ==>
      ReadFile(filePath, maxChars, entry, ex).Err? && ReadFile(filePath, maxChars, entry, ex).error.ReadFailed?
      && IsSuffix(UnsupportedFileType, ReadFile(filePath, maxChars, entry, ex).error.message)
    ensures ReadFile(filePath, maxChars, entry, ex).Ok? ==>
      entry.RegularFile? && Lower(PathSuffix(entry.resolved)) in SupportedSuffixes
  {
    if entry.RegularFile? {
      ReaderForSupported(Lower(PathSuffix(entry.resolved)));
    }
    SuffixOfConcat("Failed to read file " + filePath + ": ", UnsupportedFileType);
  }

  lemma ReadFileReadable(filePath: string, maxChars: int, resolved: string, ex: Extractions, raw: string)
    requires ReaderFor(Lower(PathSuffix(resolved))).Some?
    requires RawText(ReaderFor(Lower(PathSuffix(resolved))).value, ex) == Ok(raw)
    ensures ReadFile(filePath, maxChars, RegularFile(resolved), ex) == Ok(Deliver(Normalise(raw), ReadLimit(maxChars)))
  {
    ReadFileDispatches(filePath, maxChars, resolved, ex);
  }

  /** A regular file with a supported suffix goes to its reader. */
  lemma ReadFileDispatches(filePath: string, maxChars: int, resolved: string, ex: Extractions)
    requires ReaderFor(Lower(PathSuffix(resolved))).Some?
    ensures ReadFile(filePath, maxChars, RegularFile(resolved), ex)
      == AfterDispatch(filePath, RawText(ReaderFor(Lower(PathSuffix(resolved))).value, ex), ReadLimit(maxChars))
  {
  }

  /** A readable file gives its normalised text when it fits the clamped
      limit, the fixed sentence when it has none, and otherwise its first
      `limit` characters and the marker: never more than limit + 16
      characters. */
  lemma ReadFileDelivers(filePath: string, maxChars: int, resolved: string, ex: Extractions, raw: string)
    requires ReaderFor(Lower(PathSuffix(resolved))).Some?
    requires RawText(ReaderFor(Lower(PathSuffix(resolved))).value, ex) == Ok(raw)
    ensures var r := ReadFile(filePath, maxChars, RegularFile(resolved), ex);
      var cleaned := Normalise(raw);
      var limit := ReadLimit(maxChars);
      r.Ok?
      && (cleaned == "" ==> r.value == NoTextualContent)
      && (cleaned != "" ==> (r.value == cleaned <==> |cleaned| <= limit))
      && (cleaned != "" ==> |r.value| <= limit + |TruncationMarker| && IsPrefix(PyPrefix(cleaned, limit), r.value))
      && (|cleaned| > limit ==> IsSuffix(TruncationMarker, r.value))
  {
    var cleaned := Normalise(raw);
    var limit := ReadLimit(maxChars);
    ReadFileReadable(filePath, maxChars, resolved, ex, raw);
    DeliverShape(cleaned, limit);
    if cleaned != "" {
      NormaliseTidy(raw);
      DeliverWholeExactlyWhenFits(cleaned, limit);
    }
  }

  /** A readable .doc file yields text when textract or the fallback finds
      some, and fails as a RuntimeError carrying the install hint when
      neither does. */
  lemma ReadFileDocFallbackOrder(filePath: string, maxChars: int, resolved: string, ex: Extractions)
    requires Lower(PathSuffix(resolved)) == ".doc"
    ensures var r := ReadFile(filePath, maxChars, RegularFile(resolved), ex);
      r.Err? <==> TextractText(ex.textract).None? && DocFallback(ex.doc).None?
    ensures TextractText(ex.textract).None? && DocFallback(ex.doc).None? ==>
      ReadFile(filePath, maxChars, RegularFile(resolved), ex)
        == Err(ReadFailed("Failed to read file " + filePath + ": " + DocUnreadable))
  {
  }

  // ---------------------------------------------------------------------
  // fetch_web_content

  /** The characters urlsplit strips from the front of a URL: the C0
      controls and space. */
  predicate IsC0OrSpace(c: char)
  {
    c <= ' '
  }

  function LStripC0(s: string): (r: string)
    ensures |r| <= |s| && r == s[|s| - |r|..]
    ensures |r| > 0 ==> !IsC0OrSpace(r[0])
    decreases |s|
  {
    if |s| > 0 && IsC0OrSpace(s[0]) then LStripC0(s[1..]) else s
  }

  /** The characters urlsplit removes anywhere in a URL. */
  predicate IsUnsafeUrlChar(c: char)
  {
    c == '\t' || c == '\r' || c == '\n'
  }

  function RemoveUnsafe(s: string): (r: string)
    ensures forall i :: 0 <= i < |r| ==> !IsUnsafeUrlChar(r[i])
    decreases |s|
  {
    if |s| == 0 then ""
    else
      (if IsUnsafeUrlChar(s[0]) then "" else [s[0]]) + RemoveUnsafe(s[1..])
  }

  /** str.find(':'): the first index of a colon, or -1. */
  function FindColon(s: string): (i: int)
    ensures -1 <= i < |s| && (i >= 0 ==> s[i] == ':')
    ensures forall j :: 0 <= j < |s| && (i < 0 || j < i) ==> s[j] != ':'
    decreases |s|
  {
    if |s| == 0 then -1
    else if s[0] == ':' then 0
    else
      var k := FindColon(s[1..]);
      if k < 0 then -1 else k + 1
  }

  predicate IsAsciiLetter(c: char)
  {
    'a' <= c <= 'z' || 'A' <= c <= 'Z'
  }

  /** The characters allowed in a URL scheme. */
  predicate IsSchemeChar(c: char)
  {
    IsAsciiLetter(c) || '0' <= c <= '9' || c == '+' || c == '-' || c == '.'
  }

  /** urlparse(url).scheme: the lower-cased text before the first colon,
      when it is non-empty, starts with a letter and holds only scheme
      characters; otherwise empty. */
  function UrlScheme(url: string): string
  {
    SchemeBeforeColon(RemoveUnsafe(LStripC0(url)))
  }

  /** Every character of s may appear in a scheme. */
  predicate SchemeChars(s: string)
  {
    forall j :: 0 <= j < |s| ==> IsSchemeChar(s[j])
  }

  /** The scheme of a URL already stripped and cleaned. */
  function SchemeBeforeColon(u: string): string
  {
    var i := FindColon(u);
    if i > 0 && IsAsciiLetter(u[0]) && SchemeChars(u[..i]) then Lower(u[..i])
    else ""
  }

  predicate SchemeSupported(url: string)
  {
    UrlScheme(url) == "http" || UrlScheme(url) == "https"
  }

  lemma {:induction false} RemoveUnsafeKeepsSafePrefix(p: string, t: string)
    requires forall i :: 0 <= i < |p| ==> !IsUnsafeUrlChar(p[i])
    ensures RemoveUnsafe(p + t) == p + RemoveUnsafe(t)
    decreases |p|
  {
    if |p| > 0 {
      assert (p + t)[1..] == p[1..] + t;
      RemoveUnsafeKeepsSafePrefix(p[1..], t);
      assert p == [p[0]] + p[1..];
    } else {
      assert p + t == t;
    }
  }

  lemma {:induction false} FindColonAfter(p: string, t: string)
    requires forall i :: 0 <= i < |p| ==> p[i] != ':'
    ensures FindColon(p + ":" + t) == |p|
    decreases |p|
  {
    if |p| > 0 {
      assert (p + ":" + t)[1..] == p[1..] + ":" + t;
      FindColonAfter(p[1..], t);
    }
  }

  /** A URL that starts with a well-formed scheme and a colon has that
      scheme, lower-cased, whatever follows. */
  lemma SchemeOfUrl(scheme: string, rest: string)
    requires |scheme| > 0 && IsAsciiLetter(scheme[0]) && SchemeChars(scheme)
    ensures UrlScheme(scheme + ":" + rest) == Lower(scheme)
  {
    CleanedUrl(scheme, rest);
    SchemeBeforeColonOf(scheme, RemoveUnsafe(rest));
  }

  /** A cleaned URL that starts with a well-formed scheme and a colon. */
  lemma SchemeBeforeColonOf(scheme: string, t: string)
    requires |scheme| > 0 && IsAsciiLetter(scheme[0]) && SchemeChars(scheme)
    ensures SchemeBeforeColon(scheme + ":" + t) == Lower(scheme)
  {
    var u := scheme + ":" + t;
    FindColonAfter(scheme, t);
    assert u[..|scheme|] == scheme;
    assert u[0] == scheme[0];
  }

  /** Stripping and cleaning leave a leading scheme and its colon alone. */
  lemma CleanedUrl(scheme: string, rest: string)
    requires |scheme| > 0 && IsAsciiLetter(scheme[0]) && SchemeChars(scheme)
    ensures RemoveUnsafe(LStripC0(scheme + ":" + rest)) == scheme + ":" + RemoveUnsafe(rest)
  {
    var url := scheme + ":" + rest;
    assert url[0] == scheme[0];
    assert LStripC0(url) == url;
    assert url == scheme + (":" + rest);
    RemoveUnsafeKeepsSafePrefix(scheme, ":" + rest);
    RemoveUnsafeKeepsSafePrefix(":", rest);
  }

  /** A URL with a well-formed scheme passes the check iff that scheme,
      lower-cased, is http or https. */
  lemma SchemeCheck(scheme: string, rest: string)
    requires |scheme| > 0 && IsAsciiLetter(scheme[0]) && SchemeChars(scheme)
    ensures SchemeSupported(scheme + ":" + rest) <==> Lower(scheme) == "http" || Lower(scheme) == "https"
  {
    SchemeOfUrl(scheme, rest);
  }

  /** http and https are accepted, in any case; ftp is not. */
  lemma WebSchemesAccepted(rest: string)
    ensures SchemeSupported("http:" + rest)
    ensures SchemeSupported("https:" + rest)
    ensures SchemeSupported("HTTPS:" + rest)
  {
    SchemeOfUrl("http", rest);
    assert "http:" + rest == "http" + ":" + rest;
    assert Lower("http") == "http";
    SchemeOfUrl("https", rest);
    assert "https:" + rest == "https" + ":" + rest;
    assert Lower("https") == "https";
    SchemeOfUrl("HTTPS", rest);
    assert "HTTPS:" + rest == "HTTPS" + ":" + rest;
    assert Lower("HTTPS") == "https";
  }

  lemma FtpRefused(rest: string)
    ensures !SchemeSupported("ftp:" + rest)
  {
    SchemeOfUrl("ftp", rest);
    assert "ftp:" + rest == "ftp" + ":" + rest;
  }

  lemma {:induction false} NoColonKept(s: string)
    requires forall i :: 0 <= i < |s| ==> s[i] != ':'
    ensures forall i :: 0 <= i < |LStripC0(s)| ==> LStripC0(s)[i] != ':'
    ensures forall i :: 0 <= i < |RemoveUnsafe(s)| ==> RemoveUnsafe(s)[i] != ':'
    decreases |s|
  {
    if |s| > 0 {
      NoColonKept(s[1..]);
    }
  }

  /** A URL without a colon has no scheme, so it is refused. */
  lemma NoColonNoScheme(url: string)
    requires forall i :: 0 <= i < |url| ==> url[i] != ':'
    ensures UrlScheme(url) == "" && !SchemeSupported(url)
  {
    NoColonKept(url);
    NoColonKept(LStripC0(url));
  }

  const MinTimeout := 1
  const MaxTimeout := 120

  /** max(1, min(int(timeout_seconds), 120)). */
  function FetchTimeout(timeoutSeconds: int): (t: nat)
    ensures MinTimeout <= t <= MaxTimeout
    ensures MinTimeout <= timeoutSeconds <= MaxTimeout ==> t == timeoutSeconds
    ensures timeoutSeconds < MinTimeout ==> t == MinTimeout
    ensures timeoutSeconds > MaxTimeout ==> t == MaxTimeout
  {
    if timeoutSeconds < MinTimeout then MinTimeout
    else if timeoutSeconds > MaxTimeout then MaxTimeout
    else timeoutSeconds
  }

  /** What the HTTP request gives: a URLError whose reason is a socket
      timeout, another URLError with its reason, an exception that is not a
      URLError (a read timeout raised by response.read(), an InvalidURL for a
      URL holding a space) with its printed text, or the page, already
      decoded and tokenised into parser events. */
  datatype FetchOutcome =
    | SocketTimeout
    | UrlError(reason: string)
    | OtherError(text: string)
    | Page(events: seq<HtmlEvent>)

  /** The ValueError of the scheme check and the Exception raised for a
      URLError, with their messages; and an exception the handler does not
      catch, which leaves fetch_web_content unchanged. */
  datatype FetchError = InvalidUrl(message: string) | FetchFailed(message: string) | Escaped(message: string)

  const OnlyHttpSupported := "Only http and https URLs are supported"
  const NoReadableText := "No readable text content found at the provided URL."
  const TimedOutOpening := "Timed out after "
  const FetchErrorOpening := "Error fetching URL: "

  function TimeoutMessage(timeout: nat): string
  {
    TimedOutOpening + NatToString(timeout) + " seconds while fetching the URL"
  }

  /** text[:max_chars], and the marker exactly when the text is longer than
      max_chars; max_chars is not clamped, so a negative value cuts from
      the end as a Python slice does. */
  function TrimText(text: string, maxChars: int): string
  {
    PyPrefix(text, maxChars) + (if |text| > maxChars then TruncationMarker else "")
  }

  /** The text fetch_web_content returns for a page. */
  function PageReply(events: seq<HtmlEvent>, maxChars: int): string
  {
    var text := TextOf(Feed(Initial, events).tokens);
    if text == "" then NoReadableText else TrimText(text, maxChars)
  }

  /** fetch_web_content, with the request made by `net` given the URL and the
      clamped timeout. */
  function Fetch(url: string, maxChars: int, timeoutSeconds: int, net: (string, nat) -> FetchOutcome): Result<string, FetchError>
  {
    if !SchemeSupported(url) then Err(InvalidUrl(OnlyHttpSupported))
    else
      var timeout := FetchTimeout(timeoutSeconds);
      match net(url, timeout)
      case SocketTimeout => Err(FetchFailed(TimeoutMessage(timeout)))
      case UrlError(reason) => Err(FetchFailed(FetchErrorOpening + reason))
      case OtherError(text) => Err(Escaped(text))
      case Page(events) => Ok(PageReply(events, maxChars))
  }

  /** A URL whose scheme is not http or https is refused before any
      request is made. */
  lemma FetchRefusesOtherSchemes(url: string, maxChars: int, timeoutSeconds: int,
                                 net1: (string, nat) -> FetchOutcome, net2: (string, nat) -> FetchOutcome)
    requires !SchemeSupported(url)
    ensures Fetch(url, maxChars, timeoutSeconds, net1) == Err(InvalidUrl(OnlyHttpSupported))
    ensures Fetch(url, maxChars, timeoutSeconds, net1) == Fetch(url, maxChars, timeoutSeconds, net2)
  {
  }

  /** A socket timeout reports the clamped timeout; any other URL error
      reports its reason; an exception that is not a URLError passes
      through with its own text. */
  lemma FetchErrorsReported(url: string, maxChars: int, timeoutSeconds: int, net: (string, nat) -> FetchOutcome)
    requires SchemeSupported(url)
    ensures var timeout := FetchTimeout(timeoutSeconds);
      var r := Fetch(url, maxChars, timeoutSeconds, net);
      (net(url, timeout).SocketTimeout? ==>
        r == Err(FetchFailed(TimeoutMessage(timeout)))
        && IsPrefix(TimedOutOpening + NatToString(timeout), r.error.message))
      && (net(url, timeout).UrlError? ==>
        r == Err(FetchFailed(FetchErrorOpening + net(url, timeout).reason))
        && IsSuffix(net(url, timeout).reason, r.error.message))
      && (net(url, timeout).OtherError? ==> r == Err(Escaped(net(url, timeout).text)))
      && (r.Ok? <==> net(url, timeout).Page?)
  {
    var timeout := FetchTimeout(timeoutSeconds);
    PrefixOfConcat(TimedOutOpening + NatToString(timeout), " seconds while fetching the URL");
    if net(url, timeout).UrlError? {
      SuffixOfConcat(FetchErrorOpening, net(url, timeout).reason);
    }
  }

  /** Page text longer than max_chars is cut to max_chars characters and
      marked, so the reply is at most max_chars + 16 long; shorter text is
      returned whole; a page with no text gives the fixed sentence. */
  lemma PageReplyTruncation(events: seq<HtmlEvent>, maxChars: int)
    ensures var text := TextOf(Feed(Initial, events).tokens);
      var r := PageReply(events, maxChars);
      (text == "" ==> r == NoReadableText)
      && (text != "" && |text| <= maxChars ==> r == text)
      && (text != "" && |text| > maxChars ==> IsSuffix(TruncationMarker, r) && IsPrefix(PyPrefix(text, maxChars), r))
      && (text != "" && 0 <= maxChars ==> |r| <= maxChars + |TruncationMarker|)
  {
    var text := TextOf(Feed(Initial, events).tokens);
    if |text| > maxChars {
      PrefixOfConcat(PyPrefix(text, maxChars), TruncationMarker);
      SuffixOfConcat(PyPrefix(text, maxChars), TruncationMarker);
    } else {
      assert PyPrefix(text, maxChars) == text;
    }
  }

  /** A fresh extractor fed the page's events, and its get_text. */
  method ExtractText(events: seq<HtmlEvent>) returns (text: string)
    ensures text == TextOf(Feed(Initial, events).tokens)
  {
    var extractor := new HtmlTextExtractor();
    extractor.FeedEvents(events);
    text := extractor.GetText();
  }

  /** fetch_web_content, run with the extractor object. */
  method FetchWebContent(url: string, maxChars: int, timeoutSeconds: int, net: (string, nat) -> FetchOutcome)
    returns (r: Result<string, FetchError>)
    ensures r == Fetch(url, maxChars, timeoutSeconds, net)
  {
    if !SchemeSupported(url) {
      return Err(InvalidUrl(OnlyHttpSupported));
    }
    var timeout := FetchTimeout(timeoutSeconds);
    var outcome := net(url, timeout);
    match outcome {
      case SocketTimeout =>
        return Err(FetchFailed(TimeoutMessage(timeout)));
      case UrlError(reason) =>
        return Err(FetchFailed(FetchErrorOpening + reason));
      case OtherError(text) =>
        return Err(Escaped(text));
      case Page(events) =>
        assert Fetch(url, maxChars, timeoutSeconds, net) == Ok(PageReply(events, maxChars));
        var text := ExtractText(events);
        if text == "" {
          return Ok(NoReadableText);
        }
        var trimmed := PyPrefix(text, maxChars);
        if |text| > maxChars {
          trimmed := trimmed + TruncationMarker;
        }
        assert trimmed == TrimText(text, maxChars);
        return Ok(trimmed);
    }
  }
}
