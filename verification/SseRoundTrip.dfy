/**
 * Event streams as a server writes them: blocks of fields and comments, each
 * closed by a blank line, read back by the decoder as what was written.
 */
module SseRoundTrip {
  import opened Basics
  import opened SseDecoder

  // ------------------------------------------------------------------- writing

  /** How a value follows its name: not at all, after a colon, or after a colon and a space. */
  datatype Colon = Bare | Tight | Spaced

  datatype Field = Comment(text: string) | Named(name: string, value: string, colon: Colon)

  function Text(f: Field): string {
    match f
    case Comment(text) => ":" + text
    case Named(name, value, Bare) => name
    case Named(name, value, Tight) => name + ":" + value
    case Named(name, value, Spaced) => name + ": " + value
  }

  predicate OneLine(s: string) {
    '\n' !in s && '\r' !in s
  }

  /** A line can say it. */
  predicate Sayable(f: Field) {
    match f
    case Comment(text) => OneLine(text)
    case Named(name, value, colon) =>
      && name != "" && ':' !in name && OneLine(name) && OneLine(value)
      && (colon.Bare? ==> value == "") && (colon.Tight? ==> value == "" || value[0] != ' ')
  }

  function Texts(fields: seq<Field>): (lines: seq<string>)
    ensures |lines| == |fields|
  {
    if fields == [] then [] else Texts(fields[..|fields| - 1]) + [Text(fields[|fields| - 1])]
  }

  /** The values of the data fields, in order. */
  function DataValues(fields: seq<Field>): seq<string> {
    if fields == [] then []
    else if fields[0].Named? && fields[0].name == "data" then [fields[0].value] + DataValues(fields[1..])
    else DataValues(fields[1..])
  }

  /** The value of the last event field. */
  function EventName(fields: seq<Field>): Option<string> {
    if fields == [] then None
    else
      var last := fields[|fields| - 1];
      if last.Named? && last.name == "event" then Some(last.value) else EventName(fields[..|fields| - 1])
  }

  /** What a block of fields means: one event if it has data. */
  function Meaning(fields: seq<Field>): seq<Event> {
    if DataValues(fields) == [] then [] else [Event(Join(DataValues(fields)), EventName(fields))]
  }

  predicate Writable(fields: seq<Field>) {
    fields != [] && forall f | f in fields :: Sayable(f)
  }

  // --------------------------------------------------------------------- a line

  lemma SplitOne(line: string)
    requires OneLine(line)
    ensures Split(line, '\n') == [line]
  {
    if line != "" {
      SplitOne(line[1..]);
      assert line == [line[0]] + line[1..];
    }
  }

  lemma {:induction false} SplitFirst(line: string, rest: string)
    requires OneLine(line)
    ensures Split(line + "\n" + rest, '\n') == [line] + Split(rest, '\n')
  {
    var s := line + "\n" + rest;
    if line == "" {
      assert s[1..] == rest;
    } else {
      assert s[1..] == line[1..] + "\n" + rest;
      SplitFirst(line[1..], rest);
      assert line == [line[0]] + line[1..];
    }
  }

  /** Joined lines split into the same lines. */
  lemma {:induction false} SplitInvertsJoin(lines: seq<string>)
    requires lines != [] && forall l | l in lines :: OneLine(l)
    ensures Split(Join(lines), '\n') == lines
  {
    if |lines| == 1 {
      SplitOne(lines[0]);
    } else {
      SplitInvertsJoin(lines[1..]);
      SplitFirst(lines[0], Join(lines[1..]));
      assert lines == [lines[0]] + lines[1..];
    }
  }

  lemma FirstColon(name: string, rest: string)
    requires ':' !in name
    ensures IndexOf(name + ":" + rest, ":", 0) == Some(|name|)
    ensures IndexOf(name, ":", 0) == None
  {
    var s := name + ":" + rest;
    assert Occurs(s, ":", |name|);
    forall i | 0 <= i < |name|
      ensures !Occurs(s, ":", i) && !Occurs(name, ":", i)
    {
      assert s[i] == name[i] && s[i..i + 1][0] == s[i] && name[i..i + 1][0] == name[i];
    }
  }

  /** A field's line is read as its name and its value. */
  lemma LineReads(f: Field)
    requires Sayable(f) && f.Named?
    ensures ReadLine(Text(f)) == Line(f.name, f.value) && Text(f) != "" && Text(f)[0] != ':'
  {
    hide IndexOf;
    var value := if f.colon.Spaced? then " " + f.value else f.value;
    FirstColon(f.name, value);
    if !f.colon.Bare? {
      var line := f.name + ":" + value;
      assert Text(f) == line;
      assert line[|f.name| + 1..] == value && line[..|f.name|] == f.name;
      assert f.colon.Spaced? ==> value[1..] == f.value;
    }
    assert Text(f)[0] == f.name[0] && f.name[0] in f.name;
  }

  lemma DataFromTheBack(fields: seq<Field>)
    requires fields != []
    ensures var rest, last := fields[..|fields| - 1], fields[|fields| - 1];
            DataValues(fields) ==
            DataValues(rest) + if last.Named? && last.name == "data" then [last.value] else []
  {
    if |fields| > 1 {
      DataFromTheBack(fields[1..]);
      assert fields[..|fields| - 1][1..] == fields[1..][..|fields| - 2];
    }
  }

  // -------------------------------------------------------------------- a block

  lemma {:induction false} LinesRead(fields: seq<Field>)
    requires forall f | f in fields :: Sayable(f)
    ensures ReadLines(Texts(fields)) == Fields(DataValues(fields), EventName(fields))
  {
    hide ReadLine, Text, Sayable;
    if fields != [] {
      var rest, last := fields[..|fields| - 1], fields[|fields| - 1];
      LinesRead(rest);
      DataFromTheBack(fields);
      assert Texts(fields)[..|fields| - 1] == Texts(rest);
      if last.Named? { LineReads(last); } else { CommentStarts(last); }
    }
  }

  lemma CommentStarts(f: Field)
    requires f.Comment?
    ensures Text(f) != "" && Text(f)[0] == ':'
  {
  }

  lemma TextIsOneLine(f: Field)
    requires Sayable(f)
    ensures OneLine(Text(f)) && Text(f) != ""
  {
  }

  lemma {:induction false} TextsAreLines(fields: seq<Field>)
    requires forall f | f in fields :: Sayable(f)
    ensures forall l | l in Texts(fields) :: OneLine(l) && l != ""
  {
    hide Sayable, OneLine, Text;
    if fields != [] {
      TextsAreLines(fields[..|fields| - 1]);
      TextIsOneLine(fields[|fields| - 1]);
    }
  }

  lemma {:induction false} JoinHasNoCr(lines: seq<string>)
    requires forall l | l in lines :: OneLine(l)
    ensures NoCr(Join(lines))
  {
    if lines != [] {
      assert OneLine(lines[0]);
      if |lines| > 1 { JoinHasNoCr(lines[1..]); }
    }
  }

  /** A block is read back as what its fields mean. */
  lemma BlockReads(fields: seq<Field>)
    requires Writable(fields)
    ensures ReadBlock(Join(Texts(fields))) == Meaning(fields)
  {
    hide Sayable, ReadLines, Join, OneLine, Split, Unfold, Texts, DataValues, EventName;
    var lines := Texts(fields);
    TextsAreLines(fields);
    JoinHasNoCr(lines);
    UnfoldPlain(Join(lines));
    SplitInvertsJoin(lines);
    LinesRead(fields);
  }

  // ------------------------------------------------------------------- a stream

  function Written(blocks: seq<seq<Field>>): string {
    if blocks == [] then "" else Join(Texts(blocks[0])) + "\n\n" + Written(blocks[1..])
  }

  function Meanings(blocks: seq<seq<Field>>): seq<Event> {
    if blocks == [] then [] else Meaning(blocks[0]) + Meanings(blocks[1..])
  }

  /** No line end at either end, and none beside another. */
  predicate Dense(s: string) {
    && s != "" && s[0] != '\n' && s[|s| - 1] != '\n' && '\r' !in s
    && forall i | 0 < i < |s| :: s[i - 1] != '\n' || s[i] != '\n'
  }

  lemma {:induction false} JoinIsDense(lines: seq<string>)
    requires lines != [] && forall l | l in lines :: OneLine(l) && l != ""
    ensures Dense(Join(lines))
  {
    var first := lines[0];
    assert first in lines && forall i | 0 <= i < |first| :: first[i] in first;
    if |lines| > 1 {
      JoinIsDense(lines[1..]);
      var rest := Join(lines[1..]);
      var j := first + "\n" + rest;
      forall i | 0 < i < |j|
        ensures j[i - 1] != '\n' || j[i] != '\n'
      {
        if i > |first| + 1 { assert j[i - 1] == rest[i - 1 - |first| - 1] && j[i] == rest[i - |first| - 1]; }
      }
    }
  }

  lemma DenseEnds(block: string, more: string)
    requires Dense(block)
    ensures BoundaryFrom(block + "\n\n" + more, 0) == Some(Boundary(|block|, |block| + 2))
  {
    hide BoundaryFrom, Occurs;
    var s := block + "\n\n" + more;
    BoundaryIsFirst(s, 0);
    OccursByCharacter(s, |block|);
    assert IsBoundary(s, |block|);
    forall i | 0 <= i < |block|
      ensures !IsBoundary(s, i)
    {
      OccursByCharacter(s, i);
      assert s[i] == block[i] && block[i] in block;
      assert i + 1 < |block| ==> s[i + 1] == block[i + 1];
    }
  }

  lemma ParseStep(block: string, more: string)
    requires BoundaryFrom(block + "\n\n" + more, 0) == Some(Boundary(|block|, |block| + 2))
    ensures Parse(block + "\n\n" + more) == Parsed(ReadBlock(block) + Parse(more).events, Parse(more).rest)
  {
    hide BoundaryFrom, ReadBlock;
    var s := block + "\n\n" + more;
    assert s[|block| + 2..] == more && s[..|block|] == block;
  }

  lemma FirstWritten(blocks: seq<seq<Field>>, tail: string)
    requires blocks != []
    ensures Written(blocks) + tail == Join(Texts(blocks[0])) + "\n\n" + (Written(blocks[1..]) + tail)
    ensures Meanings(blocks) == Meaning(blocks[0]) + Meanings(blocks[1..])
  {
    hide Join, Texts, Meaning;
  }

  /** A stream is read back as what its blocks mean, in order, with nothing left over. */
  lemma {:induction false} StreamReads(blocks: seq<seq<Field>>, tail: string)
    requires forall b | b in blocks :: Writable(b)
    requires BoundaryFrom(tail, 0).None?
    ensures Parse(Written(blocks) + tail) == Parsed(Meanings(blocks), tail)
  {
    if blocks == [] {
      assert Written(blocks) + tail == tail;
    } else {
      hide *;
      var block, more := Join(Texts(blocks[0])), Written(blocks[1..]) + tail;
      WritableIsDense(blocks[0]);
      DenseEnds(block, more);
      BlockReads(blocks[0]);
      StreamReads(blocks[1..], tail);
      ParseStep(block, more);
      FirstWritten(blocks, tail);
    }
  }

  lemma WritableIsDense(fields: seq<Field>)
    requires Writable(fields)
    ensures Dense(Join(Texts(fields)))
  {
    hide Dense, Join, OneLine, Sayable, Texts;
    TextsAreLines(fields);
    JoinIsDense(Texts(fields));
  }

  /** The server's envelope: one data field on a line of its own. */
  lemma EnvelopesRead(envelopes: seq<string>)
    requires forall e | e in envelopes :: OneLine(e)
    ensures var blocks := seq(|envelopes|, i requires 0 <= i < |envelopes| => [Named("data", envelopes[i], Spaced)]);
            && Parse(Written(blocks)) == Parsed(Meanings(blocks), "")
            && Meanings(blocks) == seq(|envelopes|, i requires 0 <= i < |envelopes| => Event(envelopes[i], None))
  {
    hide Parse;
    var blocks := seq(|envelopes|, i requires 0 <= i < |envelopes| => [Named("data", envelopes[i], Spaced)]);
    forall b | b in blocks
      ensures Writable(b)
    {
      var i :| 0 <= i < |envelopes| && b == [Named("data", envelopes[i], Spaced)];
      assert envelopes[i] in envelopes && Sayable(b[0]);
    }
    assert BoundaryFrom("", 0).None?;
    StreamReads(blocks, "");
    assert Written(blocks) + "" == Written(blocks);
    EnvelopeMeanings(envelopes);
  }

  lemma {:induction false} EnvelopeMeanings(envelopes: seq<string>)
    ensures Meanings(seq(|envelopes|, i requires 0 <= i < |envelopes| => [Named("data", envelopes[i], Spaced)]))
         == seq(|envelopes|, i requires 0 <= i < |envelopes| => Event(envelopes[i], None))
  {
    if envelopes != [] {
      var rest := envelopes[1..];
      EnvelopeMeanings(rest);
      var blocks := seq(|envelopes|, i requires 0 <= i < |envelopes| => [Named("data", envelopes[i], Spaced)]);
      assert blocks[1..] == seq(|rest|, i requires 0 <= i < |rest| => [Named("data", rest[i], Spaced)]);
      assert DataValues(blocks[0]) == [envelopes[0]];
      assert EventName(blocks[0]) == EventName(blocks[0][..0]) == None;
      assert Meaning(blocks[0]) == [Event(envelopes[0], None)];
    }
  }
}
