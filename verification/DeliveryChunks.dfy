/** Cutting a summary and its links into messages that can be put together again. */
module DeliveryChunks {
  const FEISHU_MAX_CHARS: nat := 3000
  const HEADER := "原文直链"

  function LinkLine(link: string): string { "原文直链：" + link }

  // ---- Text -----------------------------------------------------------------------------

  /** Slices of FEISHU_MAX_CHARS; an empty text is one empty slice. */
  function TextChunks(text: string): (chunks: seq<string>)
    ensures |chunks| >= 1
    decreases |text|
  {
    if |text| <= FEISHU_MAX_CHARS then [text]
    else [text[..FEISHU_MAX_CHARS]] + TextChunks(text[FEISHU_MAX_CHARS..])
  }

  function Concat(chunks: seq<string>): string {
    if chunks == [] then "" else chunks[0] + Concat(chunks[1..])
  }

  /** The slices read one after the other are the text; all but the last are full. */
  lemma {:induction false} TextRoundTrip(text: string)
    ensures Concat(TextChunks(text)) == text
    ensures forall i | 0 <= i < |TextChunks(text)| - 1 :: |TextChunks(text)[i]| == FEISHU_MAX_CHARS
    ensures |TextChunks(text)[|TextChunks(text)| - 1]| <= FEISHU_MAX_CHARS
    decreases |text|
  {
    if |text| <= FEISHU_MAX_CHARS {
      assert TextChunks(text)[1..] == [];
    } else {
      var rest := text[FEISHU_MAX_CHARS..];
      TextRoundTrip(rest);
      assert TextChunks(text)[1..] == TextChunks(rest);
      assert text == text[..FEISHU_MAX_CHARS] + rest;
    }
  }

  /** The characters of message `i`, counted from 0. */
  function Slice(text: string, i: nat): string
    requires 3000 * i <= |text|
  {
    if 3000 * (i + 1) <= |text| then text[3000 * i..3000 * (i + 1)] else text[3000 * i..]
  }

  /** A text takes as many messages as its length asks for, one if it is empty. */
  lemma {:induction false} TextChunksCount(text: string)
    ensures |TextChunks(text)| == if text == "" then 1 else (|text| + 2999) / 3000
    decreases |text|
  {
    if |text| > 3000 { TextChunksCount(text[3000..]); }
  }

  lemma SliceOfRest(text: string, i: nat)
    requires 3000 < |text| && i > 0 && 3000 * i <= |text|
    ensures Slice(text[3000..], i - 1) == Slice(text, i)
  {}

  /** Message `i` of a text holds its characters from 3000 i on. */
  lemma {:induction false} TextChunkIs(text: string, i: nat)
    requires i < |TextChunks(text)|
    ensures 3000 * i <= |text| && TextChunks(text)[i] == Slice(text, i)
    decreases |text|
  {
    if |text| > 3000 && i > 0 {
      TextChunkIs(text[3000..], i - 1);
      SliceOfRest(text, i);
    }
  }

  // ---- Links ----------------------------------------------------------------------------

  function Lines(links: seq<string>): (lines: seq<string>)
    ensures |lines| == |links|
    ensures forall i | 0 <= i < |links| :: lines[i] == LinkLine(links[i])
  {
    seq(|links|, i requires 0 <= i < |links| => LinkLine(links[i]))
  }

  /** Messages are filled line by line; a line that does not fit starts the next one. */
  function Pack(current: string, lines: seq<string>): seq<string>
    decreases |lines|
  {
    if lines == [] then [current]
    else
      var candidate := current + "\n" + lines[0];
      if |candidate| > FEISHU_MAX_CHARS then [current] + Pack(lines[0], lines[1..])
      else Pack(candidate, lines[1..])
  }

  function LinkChunks(links: seq<string>): seq<string> {
    if links == [] then [] else Pack(HEADER, Lines(links))
  }

  /** The lines of a message, reading it from its end. */
  function SplitLines(s: string): (lines: seq<string>)
    ensures |lines| >= 1
  {
    if s == "" then [""]
    else
      var before := SplitLines(s[..|s| - 1]);
      if s[|s| - 1] == '\n' then before + [""]
      else before[..|before| - 1] + [before[|before| - 1] + [s[|s| - 1]]]
  }

  function ReadBack(chunks: seq<string>): seq<string> {
    if chunks == [] then [] else SplitLines(chunks[0]) + ReadBack(chunks[1..])
  }

  predicate OneLine(s: string) { '\n' !in s }

  lemma {:induction false} SplitAppend(s: string, line: string)
    requires OneLine(line)
    ensures SplitLines(s + "\n" + line) == SplitLines(s) + [line]
  {
    var all := s + "\n" + line;
    if line == "" {
      assert all[..|all| - 1] == s;
    } else {
      var shorter := line[..|line| - 1];
      SplitAppend(s, shorter);
      assert all[..|all| - 1] == s + "\n" + shorter;
      assert shorter + [line[|line| - 1]] == line;
    }
  }

  lemma {:induction false} SplitOneLine(line: string)
    requires OneLine(line)
    ensures SplitLines(line) == [line]
  {
    if line != "" {
      SplitOneLine(line[..|line| - 1]);
      assert line[..|line| - 1] + [line[|line| - 1]] == line;
    }
  }

  lemma ReadBackCons(chunk: string, rest: seq<string>)
    ensures ReadBack([chunk] + rest) == SplitLines(chunk) + ReadBack(rest)
  {
    assert ([chunk] + rest)[1..] == rest;
  }

  lemma Regrouped(a: seq<string>, line: string, rest: seq<string>)
    ensures (a + [line]) + rest == a + ([line] + rest)
  {}

  /** Reading the packed messages back gives every line, whole, once and in order. */
  lemma {:induction false} PackRoundTrip(current: string, lines: seq<string>)
    requires forall l | l in lines :: OneLine(l)
    ensures ReadBack(Pack(current, lines)) == SplitLines(current) + lines
    decreases |lines|
  {
    if lines == [] {
      ReadBackCons(current, []);
    } else {
      var line, rest := lines[0], lines[1..];
      var candidate := current + "\n" + line;
      assert line in lines && lines == [line] + rest;
      if |candidate| > FEISHU_MAX_CHARS {
        PackRoundTrip(line, rest);
        SplitOneLine(line);
        ReadBackCons(current, Pack(line, rest));
      } else {
        PackRoundTrip(candidate, rest);
        SplitAppend(current, line);
        Regrouped(SplitLines(current), line, rest);
      }
    }
  }

  /** A packed message fits, or is a single line; and no line was moved on without need. */
  lemma {:induction false} PackFits(current: string, lines: seq<string>)
    requires forall l | l in lines :: OneLine(l)
    requires |current| <= FEISHU_MAX_CHARS || OneLine(current)
    ensures var chunks := Pack(current, lines);
            && |chunks| >= 1
            && (forall i | 0 <= i < |chunks| :: |chunks[i]| <= FEISHU_MAX_CHARS || OneLine(chunks[i]))
            && SplitLines(chunks[0])[0] == SplitLines(current)[0]
            && forall i | 0 <= i < |chunks| - 1 ::
                 |chunks[i]| + 1 + |SplitLines(chunks[i + 1])[0]| > FEISHU_MAX_CHARS
    decreases |lines|
  {
    if lines != [] {
      var candidate := current + "\n" + lines[0];
      assert lines[0] in lines;
      if |candidate| > FEISHU_MAX_CHARS {
        PackFits(lines[0], lines[1..]);
        SplitOneLine(lines[0]);
      } else {
        PackFits(candidate, lines[1..]);
        SplitAppend(current, lines[0]);
      }
    }
  }

  /** The link messages of a job: read back, they are the header and one line per link, in order. */
  lemma LinksRoundTrip(links: seq<string>)
    requires links != [] && forall l | l in links :: OneLine(l)
    ensures |ReadBack(LinkChunks(links))| == |links| + 1 && ReadBack(LinkChunks(links))[0] == "原文直链"
    ensures forall i | 0 <= i < |links| :: ReadBack(LinkChunks(links))[i + 1] == "原文直链：" + links[i]
    ensures forall i | 0 <= i < |LinkChunks(links)| ::
              |LinkChunks(links)[i]| <= FEISHU_MAX_CHARS || OneLine(LinkChunks(links)[i])
    ensures forall i | 0 <= i < |LinkChunks(links)| - 1 ::
              |LinkChunks(links)[i]| + 1 + |SplitLines(LinkChunks(links)[i + 1])[0]| > FEISHU_MAX_CHARS
  {
    forall l | l in Lines(links) ensures OneLine(l) {
      var i :| 0 <= i < |links| && l == LinkLine(links[i]);
      assert links[i] in links;
    }
    SplitOneLine(HEADER);
    PackRoundTrip(HEADER, Lines(links));
    PackFits(HEADER, Lines(links));
  }

  /** The messages of a job: its text, then its links if it has any. */
  method Chunks(text: string, links: seq<string>) returns (chunks: seq<string>)
    ensures chunks == TextChunks(text) + LinkChunks(links)
  {
    chunks := [];
    var index := 0;
    while index < |text|
      invariant 0 <= index
      invariant index < |text| ==> chunks + TextChunks(text[index..]) == TextChunks(text)
      invariant index >= |text| ==> chunks == if text == "" then [] else TextChunks(text)
    {
      var end := if index + FEISHU_MAX_CHARS < |text| then index + FEISHU_MAX_CHARS else |text|;
      chunks := chunks + [text[index..end]];
      if index + FEISHU_MAX_CHARS < |text| {
        assert text[index..][FEISHU_MAX_CHARS..] == text[end..];
        assert text[index..][..FEISHU_MAX_CHARS] == text[index..end];
      } else {
        assert text[index..] == text[index..end];
      }
      index := index + FEISHU_MAX_CHARS;
    }
    if chunks == [] { chunks := [text]; }
    if links == [] { return; }
    ghost var texts := chunks;
    ghost var lines := Lines(links);
    var current := HEADER;
    for i := 0 to |links|
      invariant current != ""
      invariant texts + Pack(HEADER, lines) == chunks + Pack(current, lines[i..])
    {
      var line := LinkLine(links[i]);
      ghost var rest := lines[i + 1..];
      assert lines[i..][0] == line && lines[i..][1..] == rest;
      var candidate := current + "\n" + line;
      if |candidate| > FEISHU_MAX_CHARS && current != "" {
        assert Pack(current, lines[i..]) == [current] + Pack(line, rest);
        assert chunks + ([current] + Pack(line, rest)) == (chunks + [current]) + Pack(line, rest);
        chunks := chunks + [current];
        current := line;
      } else {
        assert Pack(current, lines[i..]) == Pack(candidate, rest);
        current := candidate;
      }
    }
    assert lines[|links|..] == [];
    if current != "" { chunks := chunks + [current]; }
  }
}
