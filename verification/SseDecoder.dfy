/**
 * An incremental decoder of event streams (a simplified form of section 9.2 of
 * the WHATWG HTML Standard): events end at a blank line, with LF or CRLF line
 * ends, and chunks may cut the stream anywhere.
 */
module SseDecoder {
  import opened Basics

  // ---------------------------------------------------------------- boundaries

  const LF := "\n\n"
  const CRLF := "\r\n\r\n"

  predicate Occurs(s: string, pattern: string, i: nat) {
    i + |pattern| <= |s| && s[i..i + |pattern|] == pattern
  }

  /** The first occurrence of a pattern at or after a position. */
  function IndexOf(s: string, pattern: string, from: nat): (r: Option<nat>)
    ensures r.Some? ==> from <= r.value && Occurs(s, pattern, r.value)
    ensures forall i | from <= i < (if r.Some? then r.value else |s| + 1) :: !Occurs(s, pattern, i)
    decreases |s| - from
  {
    if from > |s| then None
    else if Occurs(s, pattern, from) then Some(from)
    else IndexOf(s, pattern, from + 1)
  }

  /** Where an event ends and where the next one begins. */
  datatype Boundary = Boundary(start: nat, end: nat)

  function BoundaryFrom(s: string, from: nat): (b: Option<Boundary>)
    ensures b.Some? ==> b.value.start < b.value.end <= |s|
  {
    var lf, crlf := IndexOf(s, LF, from), IndexOf(s, CRLF, from);
    if crlf.Some? && (lf.None? || crlf.value < lf.value) then Some(Boundary(crlf.value, crlf.value + 4))
    else if lf.Some? then Some(Boundary(lf.value, lf.value + 2))
    else None
  }

  predicate IsBoundary(s: string, i: nat) {
    Occurs(s, LF, i) || Occurs(s, CRLF, i)
  }

  /** The two patterns, character by character. */
  lemma OccursByCharacter(s: string, i: nat)
    ensures Occurs(s, LF, i) <==> i + 2 <= |s| && s[i] == '\n' && s[i + 1] == '\n'
    ensures Occurs(s, CRLF, i) <==>
            i + 4 <= |s| && s[i] == '\r' && s[i + 1] == '\n' && s[i + 2] == '\r' && s[i + 3] == '\n'
  {
    if i + 2 <= |s| && s[i] == '\n' && s[i + 1] == '\n' { assert s[i..i + 2] == LF; }
    if i + 2 <= |s| && s[i..i + 2] == LF { assert s[i] == s[i..i + 2][0] && s[i + 1] == s[i..i + 2][1]; }
    if i + 4 <= |s| && s[i] == '\r' && s[i + 1] == '\n' && s[i + 2] == '\r' && s[i + 3] == '\n' {
      assert s[i..i + 4] == CRLF;
    }
    if i + 4 <= |s| && s[i..i + 4] == CRLF {
      assert s[i] == s[i..i + 4][0] && s[i + 1] == s[i..i + 4][1];
      assert s[i + 2] == s[i..i + 4][2] && s[i + 3] == s[i..i + 4][3];
    }
  }

  /** Boundaries described without searching: the first place where either pattern occurs. */
  lemma BoundaryIsFirst(s: string, from: nat)
    ensures match BoundaryFrom(s, from)
            case None => forall i | from <= i :: !IsBoundary(s, i)
            case Some(b) =>
              && from <= b.start && IsBoundary(s, b.start) && (forall i | from <= i < b.start :: !IsBoundary(s, i))
              && b.end == b.start + (if Occurs(s, LF, b.start) then 2 else 4)
  {
    var crlf := IndexOf(s, CRLF, from);
    if crlf.Some? { OccursByCharacter(s, crlf.value); }
  }

  /** Searching may start anywhere before which no boundary begins. */
  lemma BoundaryFromLater(s: string, from: nat)
    requires forall i | 0 <= i < from :: !IsBoundary(s, i)
    ensures BoundaryFrom(s, from) == BoundaryFrom(s, 0)
  {
    hide IsBoundary, BoundaryFrom;
    BoundaryIsFirst(s, from);
    BoundaryIsFirst(s, 0);
  }

  /** Whether a boundary begins at a place is settled once a boundary at or after it is complete. */
  lemma SettledBefore(a: string, b: string, start: nat, i: nat)
    requires i <= start && IsBoundary(a, start)
    ensures Occurs(a + b, LF, i) <==> Occurs(a, LF, i)
    ensures IsBoundary(a + b, i) <==> IsBoundary(a, i)
  {
    OccursByCharacter(a, start);
    OccursByCharacter(a, i);
    OccursByCharacter(a + b, i);
  }

  /** More input never moves a boundary that has been seen. */
  lemma BoundaryStays(a: string, b: string)
    requires BoundaryFrom(a, 0).Some?
    ensures BoundaryFrom(a + b, 0) == BoundaryFrom(a, 0)
  {
    hide IsBoundary, BoundaryFrom, Occurs;
    BoundaryIsFirst(a, 0);
    BoundaryIsFirst(a + b, 0);
    var start := BoundaryFrom(a, 0).value.start;
    forall i | 0 <= i <= start
      ensures IsBoundary(a + b, i) <==> IsBoundary(a, i)
      ensures Occurs(a + b, LF, i) <==> Occurs(a, LF, i)
    {
      SettledBefore(a, b, start, i);
    }
  }

  /** Text without a boundary can only complete one that begins in its last three characters. */
  lemma OnlyTheLastThree(a: string, b: string, i: nat)
    requires !IsBoundary(a, i) && i + 3 < |a|
    ensures !IsBoundary(a + b, i)
  {
    OccursByCharacter(a, i);
    OccursByCharacter(a + b, i);
  }

  // -------------------------------------------------------------------- events

  /** The data lines of one event joined, and its name. */
  datatype Event = Event(data: string, name: Option<string>)

  function Unfold(s: string): string {
    if s == "" then ""
    else if |s| >= 2 && s[0] == '\r' && s[1] == '\n' then "\n" + Unfold(s[2..])
    else [s[0]] + Unfold(s[1..])
  }

  /** Pieces between separators; at least one. */
  function Split(s: string, separator: char): (lines: seq<string>)
    ensures lines != []
  {
    if s == "" then [""]
    else
      var rest := Split(s[1..], separator);
      if s[0] == separator then [""] + rest else [[s[0]] + rest[0]] + rest[1..]
  }

  function Join(lines: seq<string>): string {
    if lines == [] then "" else if |lines| == 1 then lines[0] else lines[0] + "\n" + Join(lines[1..])
  }

  datatype Line = Line(field: string, value: string)

  function ReadLine(line: string): Line {
    match IndexOf(line, ":", 0)
    case None => Line(line, "")
    case Some(at) =>
      var value := line[at + 1..];
      Line(line[..at], if value != "" && value[0] == ' ' then value[1..] else value)
  }

  datatype Fields = Fields(data: seq<string>, name: Option<string>)

  function ReadLines(lines: seq<string>): Fields {
    if lines == [] then Fields([], None)
    else
      var before, line := ReadLines(lines[..|lines| - 1]), lines[|lines| - 1];
      if line != "" && line[0] == ':' then before
      else
        var l := ReadLine(line);
        if l.field == "event" then before.(name := Some(l.value))
        else if l.field == "data" then before.(data := before.data + [l.value])
        else before
  }

  /** What one block says: nothing unless it has data. */
  function ReadBlock(block: string): seq<Event> {
    var fields := ReadLines(Split(Unfold(block), '\n'));
    if fields.data == [] then [] else [Event(Join(fields.data), fields.name)]
  }

  // ----------------------------------------------------------------- the stream

  datatype Parsed = Parsed(events: seq<Event>, rest: string)

  /** A whole text read at once. */
  function Parse(text: string): Parsed
    decreases |text|
  {
    match BoundaryFrom(text, 0)
    case None => Parsed([], text)
    case Some(b) =>
      var later := Parse(text[b.end..]);
      Parsed(ReadBlock(text[..b.start]) + later.events, later.rest)
  }

  lemma ParseOne(text: string, events: seq<Event>)
    requires BoundaryFrom(text, 0).Some?
    ensures var b := BoundaryFrom(text, 0).value;
            var later := Parse(text[b.end..]);
            Parsed(events + Parse(text).events, Parse(text).rest)
            == Parsed(events + ReadBlock(text[..b.start]) + later.events, later.rest)
  {
    hide ReadBlock, BoundaryFrom;
    var b := BoundaryFrom(text, 0).value;
    var block, later := ReadBlock(text[..b.start]), Parse(text[b.end..]).events;
    assert events + (block + later) == events + block + later;
  }

  /** Reading a text in two parts gives what reading it at once gives. */
  lemma {:induction false} ParseInTwo(a: string, b: string)
    ensures var first := Parse(a);
            var second := Parse(first.rest + b);
            Parse(a + b) == Parsed(first.events + second.events, second.rest)
    decreases |a|
  {
    hide ReadBlock, IsBoundary, BoundaryFrom;
    if BoundaryFrom(a, 0).Some? {
      var x := BoundaryFrom(a, 0).value;
      BoundaryStays(a, b);
      assert (a + b)[x.end..] == a[x.end..] + b && (a + b)[..x.start] == a[..x.start];
      ParseInTwo(a[x.end..], b);
    }
  }

  /** Pushing chunks one after the other onto what is left over. */
  function Feed(chunks: seq<string>, buffer: string): Parsed {
    if chunks == [] then Parsed([], buffer)
    else
      var first := Parse(buffer + chunks[0]);
      var later := Feed(chunks[1..], first.rest);
      Parsed(first.events + later.events, later.rest)
  }

  function Concat(chunks: seq<string>): string {
    if chunks == [] then "" else chunks[0] + Concat(chunks[1..])
  }

  /** No chunk brings what is left over past the limit. */
  predicate KeepsLimit(chunks: seq<string>, buffer: string, limit: nat) {
    chunks == [] ||
    (Utf8Length(buffer + chunks[0]) <= limit && KeepsLimit(chunks[1..], Parse(buffer + chunks[0]).rest, limit))
  }

  lemma FedOnce(text: string, later: string, rest: Parsed)
    requires rest == Parse(Parse(text).rest + later)
    ensures Parse(text + later) == Parsed(Parse(text).events + rest.events, rest.rest)
  {
    ParseInTwo(text, later);
  }

  lemma {:induction false} FeedIsParse(chunks: seq<string>, buffer: string)
    requires BoundaryFrom(buffer, 0).None?
    ensures Feed(chunks, buffer) == Parse(buffer + Concat(chunks))
  {
    hide BoundaryFrom, ReadBlock;
    if chunks == [] {
      assert buffer + "" == buffer;
    } else {
      var text, later := buffer + chunks[0], Concat(chunks[1..]);
      assert buffer + Concat(chunks) == text + later;
      RestHasNoBoundary(text);
      FeedIsParse(chunks[1..], Parse(text).rest);
      FedOnce(text, later, Feed(chunks[1..], Parse(text).rest));
    }
  }

  lemma {:induction false} RestHasNoBoundary(text: string)
    ensures BoundaryFrom(Parse(text).rest, 0).None?
    decreases |text|
  {
    hide BoundaryFrom;
    if BoundaryFrom(text, 0).Some? { RestHasNoBoundary(text[BoundaryFrom(text, 0).value.end..]); }
  }

  /** Any two ways of cutting one stream give the same events and the same leftover. */
  lemma ChunkingDoesNotMatter(a: seq<string>, b: seq<string>)
    requires Concat(a) == Concat(b)
    ensures Feed(a, "") == Feed(b, "") == Parse(Concat(a))
  {
    FeedIsParse(a, "");
    FeedIsParse(b, "");
    assert "" + Concat(a) == Concat(a);
  }

  // ---------------------------------------------------------------- line ends

  /** The text with every LF line end written as CRLF. */
  function Crlf(s: string): string {
    if s == "" then ""
    else (if s[0] == '\n' then "\r\n" else [s[0]]) + Crlf(s[1..])
  }

  predicate NoCr(s: string) {
    '\r' !in s
  }

  lemma {:induction false} CrlfJoins(a: string, b: string)
    ensures Crlf(a + b) == Crlf(a) + Crlf(b)
  {
    if a == "" {
      assert a + b == b;
    } else {
      assert (a + b)[1..] == a[1..] + b;
      CrlfJoins(a[1..], b);
    }
  }

  lemma {:induction false} UnfoldPlain(s: string)
    requires NoCr(s)
    ensures Unfold(s) == s
  {
    if s != "" { UnfoldPlain(s[1..]); }
  }

  lemma {:induction false} UnfoldInvertsCrlf(s: string)
    requires NoCr(s)
    ensures Unfold(Crlf(s)) == s
  {
    if s != "" {
      UnfoldInvertsCrlf(s[1..]);
      var c := Crlf(s);
      if s[0] == '\n' { assert c[2..] == Crlf(s[1..]); } else { assert c[1..] == Crlf(s[1..]); }
      assert s == [s[0]] + s[1..];
    }
  }

  /** A boundary of the rewritten text is where a boundary of the text was. */
  lemma {:induction false} CrlfBoundaryAt(s: string, p: nat) returns (i: nat)
    requires NoCr(s) && IsBoundary(Crlf(s), p)
    ensures i < |s| && p == |Crlf(s[..i])| && Occurs(s, LF, i)
  {
    var c, h := Crlf(s), if s[0] == '\n' then 2 else 1;
    OccursByCharacter(c, p);
    OccursByCharacter(s, 0);
    if p == 0 {
      CrlfHead(s);
      i := 0;
    } else {
      assert c[h..] == Crlf(s[1..]);
      OccursByCharacter(c[h..], p - h);
      var j := CrlfBoundaryAt(s[1..], p - h);
      i := j + 1;
      assert s[..i] == [s[0]] + s[1..][..j];
      assert s[..i][1..] == s[1..][..j];
      OccursByCharacter(s[1..], j);
      OccursByCharacter(s, i);
    }
  }

  lemma CrlfHead(s: string)
    requires NoCr(s) && IsBoundary(Crlf(s), 0)
    ensures Occurs(s, LF, 0)
  {
    OccursByCharacter(Crlf(s), 0);
    OccursByCharacter(s, 0);
    assert s[0] == '\n';
    assert Crlf(s)[2..] == Crlf(s[1..]);
    assert Crlf(s[1..])[0] == '\r';
  }

  lemma CrlfKeepsBoundary(s: string, i: nat)
    requires NoCr(s) && Occurs(s, LF, i)
    ensures Occurs(Crlf(s), CRLF, |Crlf(s[..i])|)
    ensures Crlf(s) == Crlf(s[..i]) + CRLF + Crlf(s[i + 2..])
  {
    OccursByCharacter(s, i);
    assert s == s[..i] + (LF + s[i + 2..]);
    CrlfJoins(s[..i], LF + s[i + 2..]);
    CrlfJoins(LF, s[i + 2..]);
    assert Crlf(LF) == CRLF by { assert LF[1..] == "\n" && "\n"[1..] == ""; assert Crlf("\n") == "\r\n" + Crlf(""); }
    assert Crlf(s) == Crlf(s[..i]) + CRLF + Crlf(s[i + 2..]);
  }

  lemma {:induction false} CrlfGrows(s: string, i: nat, j: nat)
    requires i <= j <= |s|
    ensures |Crlf(s[..i])| + (j - i) <= |Crlf(s[..j])|
  {
    if i < j {
      CrlfGrows(s, i, j - 1);
      assert s[..j] == s[..j - 1] + [s[j - 1]];
      CrlfJoins(s[..j - 1], [s[j - 1]]);
      assert Crlf([s[j - 1]]) == (if s[j - 1] == '\n' then "\r\n" else [s[j - 1]]) + Crlf([s[j - 1]][1..]);
    }
  }

  lemma NoCrMeansLf(s: string)
    requires NoCr(s)
    ensures forall i | IsBoundary(s, i) :: Occurs(s, LF, i)
  {
    forall i | IsBoundary(s, i)
      ensures Occurs(s, LF, i)
    {
      OccursByCharacter(s, i);
    }
  }

  lemma CrlfBoundary(s: string)
    requires NoCr(s)
    ensures match BoundaryFrom(s, 0)
            case None => BoundaryFrom(Crlf(s), 0).None?
            case Some(b) => var p := |Crlf(s[..b.start])|; BoundaryFrom(Crlf(s), 0) == Some(Boundary(p, p + 4))
  {
    hide IsBoundary, BoundaryFrom, Occurs;
    BoundaryIsFirst(s, 0);
    BoundaryIsFirst(Crlf(s), 0);
    NoCrMeansLf(s);
    var c := BoundaryFrom(Crlf(s), 0);
    if c.Some? {
      var i := CrlfBoundaryAt(s, c.value.start);
      LfIsBoundary(s, i);
      CrlfKeepsBoundary(s, i);
      CrlfIsNotLf(Crlf(s), c.value.start);
      var b := BoundaryFrom(s, 0).value;
      CrlfKeepsBoundary(s, b.start);
      CrlfIsNotLf(Crlf(s), |Crlf(s[..b.start])|);
      CrlfGrows(s, b.start, i);
    } else if BoundaryFrom(s, 0).Some? {
      CrlfKeepsBoundary(s, BoundaryFrom(s, 0).value.start);
      CrlfIsNotLf(Crlf(s), |Crlf(s[..BoundaryFrom(s, 0).value.start])|);
    }
  }

  lemma LfIsBoundary(s: string, i: nat)
    requires Occurs(s, LF, i)
    ensures IsBoundary(s, i)
  {
  }

  lemma CrlfIsNotLf(s: string, i: nat)
    requires Occurs(s, CRLF, i)
    ensures IsBoundary(s, i) && !Occurs(s, LF, i)
  {
    OccursByCharacter(s, i);
  }

  /** A stream says the same with either line end. */
  lemma {:induction false} LineEndsDoNotMatter(s: string)
    requires NoCr(s)
    ensures Parse(Crlf(s)) == Parsed(Parse(s).events, Crlf(Parse(s).rest))
    decreases |s|
  {
    hide IsBoundary, BoundaryFrom, Occurs, ReadBlock;
    CrlfBoundary(s);
    if BoundaryFrom(s, 0).Some? {
      var b := BoundaryFrom(s, 0).value;
      BoundaryIsFirst(s, 0);
      NoCrMeansLf(s);
      CrlfKeepsBoundary(s, b.start);
      LineEndsDoNotMatter(s[b.end..]);
      var p := |Crlf(s[..b.start])|;
      assert Crlf(s)[..p] == Crlf(s[..b.start]) && Crlf(s)[p + 4..] == Crlf(s[b.end..]);
      BlockLineEnds(s[..b.start]);
    }
  }

  lemma BlockLineEnds(block: string)
    requires NoCr(block)
    ensures ReadBlock(Crlf(block)) == ReadBlock(block)
  {
    UnfoldPlain(block);
    UnfoldInvertsCrlf(block);
  }

  // ---------------------------------------------------------------- the object

  function Width(c: char): nat {
    if c < '\U{80}' then 1 else if c < '\U{800}' then 2 else if c < '\U{10000}' then 3 else 4
  }

  /** The size of a text in UTF-8. */
  function Utf8Length(s: string): nat {
    if s == "" then 0 else Width(s[0]) + Utf8Length(s[1..])
  }

  lemma {:induction false} Utf8LengthJoins(a: string, b: string)
    ensures Utf8Length(a + b) == Utf8Length(a) + Utf8Length(b)
  {
    if a == "" {
      assert a + b == b;
    } else {
      assert (a + b)[1..] == a[1..] + b;
      Utf8LengthJoins(a[1..], b);
    }
  }

  class LegacyDecoder {
    const maxBufferBytes: nat
    var buffer: string
    var pendingBytes: nat
    var scanFrom: nat

    /**
     * The buffer is what has not been consumed, it holds no complete event, the
     * scan position is safe, and the byte count is the size of the buffer.
     */
    ghost predicate Valid()
      reads this
    {
      && BoundaryFrom(buffer, 0).None?
      && scanFrom <= (if |buffer| < 3 then 0 else |buffer| - 3)
      && pendingBytes == Utf8Length(buffer)
    }

    constructor (limit: nat)
      ensures Valid() && buffer == "" && maxBufferBytes == limit
    {
      maxBufferBytes, buffer, pendingBytes, scanFrom := limit, "", 0, 0;
    }

    /** Cut the first event off the buffer, and its bytes off the count. */
    method TakeBlock(b: Boundary) returns (block: string)
      requires b.start < b.end <= |buffer| && pendingBytes == Utf8Length(buffer)
      modifies this`buffer, this`pendingBytes, this`scanFrom
      ensures block == old(buffer)[..b.start] && buffer == old(buffer)[b.end..]
      ensures pendingBytes == Utf8Length(buffer) && scanFrom == 0
    {
      Utf8LengthJoins(buffer[..b.end], buffer[b.end..]);
      assert buffer == buffer[..b.end] + buffer[b.end..];
      block := buffer[..b.start];
      pendingBytes := pendingBytes - Utf8Length(buffer[..b.end]);
      buffer := buffer[b.end..];
      scanFrom := 0;
    }

    method Drain() returns (events: seq<Event>)
      requires pendingBytes == Utf8Length(buffer) && forall i | 0 <= i < scanFrom :: !IsBoundary(buffer, i)
      modifies this`buffer, this`pendingBytes, this`scanFrom
      ensures Valid()
      ensures Parsed(events, buffer) == Parse(old(buffer))
    {
      hide ReadBlock, IsBoundary, BoundaryFrom;
      events := [];
      while true
        invariant pendingBytes == Utf8Length(buffer) && forall i | 0 <= i < scanFrom :: !IsBoundary(buffer, i)
        invariant Parse(old(buffer)) == Parsed(events + Parse(buffer).events, Parse(buffer).rest)
        decreases |buffer|
      {
        BoundaryFromLater(buffer, scanFrom);
        var boundary := BoundaryFrom(buffer, scanFrom);
        if boundary.None? {
          scanFrom := if |buffer| < 3 then 0 else |buffer| - 3;
          assert events + [] == events;
          return;
        }
        ghost var whole := buffer;
        var block := TakeBlock(boundary.value);
        ParseOne(whole, events);
        events := events + ReadBlock(block);
      }
    }

    /** Add a chunk; no events where the limit is passed, and then only the count has changed. */
    method Push(chunk: string) returns (events: Option<seq<Event>>)
      requires Valid()
      modifies this
      ensures events.Some? <==> Utf8Length(old(buffer) + chunk) <= maxBufferBytes
      ensures match events
              case Some(es) => Valid() && Parsed(es, buffer) == Parse(old(buffer) + chunk)
              case None => buffer == old(buffer) && pendingBytes == Utf8Length(old(buffer) + chunk)
    {
      hide ReadBlock, IsBoundary, BoundaryFrom;
      Utf8LengthJoins(buffer, chunk);
      pendingBytes := pendingBytes + Utf8Length(chunk);
      if pendingBytes > maxBufferBytes { return None; }
      NoneBeforeTheLastThree(buffer, chunk);
      buffer := buffer + chunk;
      var es := Drain();
      return Some(es);
    }

    /**
     * Push chunks one after the other. While the limit is kept, the events and the
     * leftover are those of the whole text read at once, however it was cut.
     */
    method PushAll(chunks: seq<string>) returns (events: Option<seq<Event>>)
      requires Valid()
      modifies this
      ensures events.Some? <==> KeepsLimit(chunks, old(buffer), maxBufferBytes)
      ensures events.Some? ==> Valid() && Parsed(events.value, buffer) == Parse(old(buffer) + Concat(chunks))
    {
      hide ReadBlock, BoundaryFrom, Utf8Length, Parse;
      FeedIsParse(chunks, buffer);
      var all: seq<Event> := [];
      assert chunks[0..] == chunks;
      for i := 0 to |chunks|
        invariant Valid()
        invariant KeepsLimit(chunks, old(buffer), maxBufferBytes) <==> KeepsLimit(chunks[i..], buffer, maxBufferBytes)
        invariant var later := Feed(chunks[i..], buffer);
                  Feed(chunks, old(buffer)) == Parsed(all + later.events, later.rest)
      {
        assert chunks[i..][0] == chunks[i] && chunks[i..][1..] == chunks[i + 1..];
        var next := Push(chunks[i]);
        if next.None? { return None; }
        all := all + next.value;
      }
      return Some(all);
    }

    /** The end of the stream: an error if it ends inside an event. */
    method Finish() returns (events: Option<seq<Event>>)
      requires Valid()
      modifies this
      ensures Valid() && buffer == old(buffer)
      ensures events == if buffer == "" then Some([]) else None
    {
      hide ReadBlock, IsBoundary, BoundaryFrom;
      NoneBeforeTheLastThree(buffer, "");
      assert buffer + "" == buffer;
      var es := Drain();
      return if buffer != "" then None else Some(es);
    }
  }

  lemma NoneBeforeTheLastThree(buffer: string, chunk: string)
    requires BoundaryFrom(buffer, 0).None?
    ensures forall i | 0 <= i && i + 3 < |buffer| :: !IsBoundary(buffer + chunk, i)
  {
    hide IsBoundary, BoundaryFrom;
    BoundaryIsFirst(buffer, 0);
    forall i | 0 <= i && i + 3 < |buffer|
      ensures !IsBoundary(buffer + chunk, i)
    {
      OnlyTheLastThree(buffer, chunk, i);
    }
  }
}
