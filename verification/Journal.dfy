/** Append-only JSON-lines journals: one encoded record and a newline per entry, read back
    after a crash that may have torn the last line anywhere. */
module Journal {
  import opened Common

  /** A record's JSON text and the parser for one line. */
  datatype Codec<!T> = Codec(encode: T -> string, decode: string -> Option<T>)

  /** What JSON objects on one line guarantee: no raw newline, parsing undoes encoding, and
      an object is complete only at its closing brace. */
  ghost predicate Lawful<T(!new)>(c: Codec<T>) {
    && c.decode("") == None
    && (forall e :: '\n' !in c.encode(e))
    && (forall e :: c.decode(c.encode(e)) == Some(e))
    && (forall e, k :: 0 <= k < |c.encode(e)| ==> c.decode(c.encode(e)[..k]) == None)
  }

  /** The beginning of one object followed by another object is no object. */
  ghost predicate Unmergeable<T(!new)>(c: Codec<T>) {
    forall d, e, k :: 0 < k <= |c.encode(d)| ==> c.decode(c.encode(d)[..k] + c.encode(e)) == None
  }

  function Line<T>(c: Codec<T>, e: T): string {
    c.encode(e) + "\n"
  }

  ghost function Text<T(!new)>(c: Codec<T>, entries: seq<T>): string {
    if entries == [] then ""
    else Text(c, entries[..|entries| - 1]) + Line(c, entries[|entries| - 1])
  }

  function FirstNewline(s: string): (k: nat)
    requires '\n' in s
    ensures k < |s| && s[k] == '\n' && '\n' !in s[..k]
  {
    if s[0] == '\n' then 0 else
      assert s == [s[0]] + s[1..];
      1 + FirstNewline(s[1..])
  }

  /** The lines a text stream yields; the last one may lack its newline. */
  function Lines(s: string): seq<string>
    decreases |s|
  {
    if '\n' in s then
      var k := FirstNewline(s);
      [s[..k]] + Lines(s[k + 1..])
    else if s == "" then []
    else [s]
  }

  ghost function Parsed<T(!new)>(c: Codec<T>, lines: seq<string>): seq<T> {
    if lines == [] then []
    else
      var before := Parsed(c, lines[..|lines| - 1]);
      match c.decode(lines[|lines| - 1])
      case Some(e) => before + [e]
      case None => before
  }

  lemma {:induction false} FirstNewlineIs(s: string, n: nat)
    requires n < |s| && s[n] == '\n' && '\n' !in s[..n]
    ensures FirstNewline(s) == n
  {
  }

  lemma {:induction false} LinesOfLine(line: string, rest: string)
    requires '\n' !in line
    ensures Lines(line + "\n" + rest) == [line] + Lines(rest)
  {
    var s := line + "\n" + rest;
    assert s[|line|] == '\n';
    FirstNewlineIs(s, |line|);
    assert s[..|line|] == line;
    assert s[|line| + 1..] == rest;
  }

  lemma {:induction false} EmptyHasNoLines()
    ensures Lines("") == []
  {
  }

  lemma {:induction false} LinesSplit(s: string, rest: string)
    requires s == "" || s[|s| - 1] == '\n'
    ensures Lines(s + rest) == Lines(s) + Lines(rest)
    decreases |s|
  {
    hide Lines, FirstNewline;
    if s == "" {
      assert Lines(s) == [] by {
        EmptyHasNoLines();
      }
      assert s + rest == rest;
    } else {
      var k := FirstNewline(s);
      var line, tail := s[..k], s[k + 1..];
      assert s == line + "\n" + tail;
      assert s + rest == line + "\n" + (tail + rest);
      calc {
        Lines(s + rest);
        { LinesOfLine(line, tail + rest); }
        [line] + Lines(tail + rest);
        { LinesSplit(tail, rest); }
        [line] + (Lines(tail) + Lines(rest));
        { LinesOfLine(line, tail); }
        Lines(s) + Lines(rest);
      }
    }
  }

  lemma {:induction false} TextEndsInNewline<T(!new)>(c: Codec<T>, entries: seq<T>)
    ensures Text(c, entries) == "" || Text(c, entries)[|Text(c, entries)| - 1] == '\n'
  {
  }

  lemma {:induction false} LinesOfText<T(!new)>(c: Codec<T>, entries: seq<T>)
    requires Lawful(c)
    ensures Parsed(c, Lines(Text(c, entries))) == entries
  {
    hide Lines, FirstNewline;
    EmptyHasNoLines();
    if entries != [] {
      var front, e := entries[..|entries| - 1], entries[|entries| - 1];
      LinesOfText(c, front);
      TextEndsInNewline(c, front);
      LinesSplit(Text(c, front), Line(c, e));
      assert c.encode(e) + "\n" + "" == Line(c, e);
      LinesOfLine(c.encode(e), "");
      SnocParsed(c, Lines(Text(c, front)), c.encode(e));
    }
  }

  /** Complete lines and a torn piece of the next one: exactly the entries whose whole
      object reached the disk come back, in order. */
  lemma {:induction false} TornJournal<T(!new)>(c: Codec<T>, entries: seq<T>, e: T, k: nat)
    requires Lawful(c) && k <= |Line(c, e)|
    ensures Parsed(c, Lines(Text(c, entries) + Line(c, e)[..k]))
         == if k >= |c.encode(e)| then entries + [e] else entries
  {
    hide Lines, Parsed;
    var text, piece := Text(c, entries), Line(c, e)[..k];
    LinesOfText(c, entries);
    TextEndsInNewline(c, entries);
    LinesSplit(text, piece);
    EmptyHasNoLines();
    if k == |Line(c, e)| {
      assert piece == c.encode(e) + "\n" + "";
      LinesOfLine(c.encode(e), "");
      assert Lines(piece) == [c.encode(e)];
      SnocParsed(c, Lines(text), c.encode(e));
    } else if k == 0 {
      assert piece == "" && text + piece == text;
    } else {
      assert piece == c.encode(e)[..k];
      OneLine(piece);
      SnocParsed(c, Lines(text), piece);
      assert k == |c.encode(e)| ==> piece == c.encode(e);
    }
    EncodesSomething(c, e);
  }

  lemma {:induction false} EncodesSomething<T(!new)>(c: Codec<T>, e: T)
    requires Lawful(c)
    ensures c.encode(e) != ""
  {
    assert c.decode(c.encode(e)) == Some(e);
  }

  lemma {:induction false} OneLine(s: string)
    requires s != "" && '\n' !in s
    ensures Lines(s) == [s]
  {
  }

  lemma {:induction false} SnocParsed<T(!new)>(c: Codec<T>, lines: seq<string>, line: string)
    ensures Parsed(c, lines + [line])
         == Parsed(c, lines) + (match c.decode(line) case Some(e) => [e] case None => [])
  {
    assert (lines + [line])[..|lines|] == lines;
  }

  lemma {:induction false} MergedLine<T(!new)>(c: Codec<T>, entries: seq<T>, d: T, e: T, k: nat)
    requires Lawful(c) && Unmergeable(c) && 0 < k < |Line(c, d)|
    ensures Parsed(c, Lines(Text(c, entries) + Line(c, d)[..k] + Line(c, e))) == entries
  {
    hide Lines;
    var merged := c.encode(d)[..k] + c.encode(e);
    assert Line(c, d)[..k] == c.encode(d)[..k];
    assert Text(c, entries) + Line(c, d)[..k] + Line(c, e) == Text(c, entries) + (merged + "\n" + "");
    LinesOfText(c, entries);
    TextEndsInNewline(c, entries);
    LinesSplit(Text(c, entries), merged + "\n" + "");
    LinesOfLine(merged, "");
    EmptyHasNoLines();
    SnocParsed(c, Lines(Text(c, entries)), merged);
  }

  /** An append after one that left k bytes of d behind loses its own entry, and d's,
      unless d's line was left whole. */
  lemma {:induction false} AppendAfterTorn<T(!new)>(c: Codec<T>, entries: seq<T>, d: T, e: T, k: nat)
    requires Lawful(c) && Unmergeable(c) && k <= |Line(c, d)|
    ensures Parsed(c, Lines(Text(c, entries) + Line(c, d)[..k] + Line(c, e)))
         == if k == 0 then entries + [e]
            else if k < |Line(c, d)| then entries
            else entries + [d, e]
  {
    hide Lines, Parsed, Unmergeable;
    var text, piece := Text(c, entries), Line(c, d)[..k];
    if k == |Line(c, d)| {
      assert piece == Line(c, d);
      assert text + piece == Text(c, entries + [d]) by {
        assert (entries + [d])[..|entries|] == entries;
      }
      TornJournal(c, entries + [d], e, |Line(c, e)|);
      assert Line(c, e)[..|Line(c, e)|] == Line(c, e);
      assert entries + [d] + [e] == entries + [d, e];
    } else if k == 0 {
      assert text + piece + Line(c, e) == text + Line(c, e)[..|Line(c, e)|];
      TornJournal(c, entries, e, |Line(c, e)|);
    } else {
      MergedLine(c, entries, d, e, k);
    }
  }
}
