/**
 * The form events have on the wire: an `event:` line and a `data:` line to a group. The mapper finds the data line
 * wherever it stands among others, and what it writes in that form reads back and stays a group of its own.
 */
module WireForm {
  import opened Options
  import opened Framing
  import opened ReverseMap
  import opened ReverseMapper

  predicate NoNewline(s: string) {
    forall c <- s :: c != '\n'
  }

  /** A line that carries no data. */
  predicate OtherLine(line: string) {
    NoNewline(line) && !("data:" <= line)
  }

  /** Lines, each with its newline. */
  function Joined(lines: seq<string>): string {
    if lines == [] then "" else lines[0] + "\n" + Joined(lines[1..])
  }

  lemma {:induction false} LineEndAt(line: string, tail: string)
    requires NoNewline(line) && (tail == "" || tail[0] == '\n')
    ensures LineEnd(line + tail) == |line|
  {
    if line == "" {
      assert line + tail == tail;
    } else {
      assert (line + tail)[1..] == line[1..] + tail && (line + tail)[0] == line[0];
      assert line[0] in line && forall c <- line[1..] :: c in line;
      LineEndAt(line[1..], tail);
    }
  }

  lemma PrefixOfBoth(p: string, line: string, tail: string)
    requires |p| <= |line|
    ensures (line + tail)[..|p|] == line[..|p|] && (p <= line <==> line[..|p|] == p)
  {
  }

  /** The data line itself, at the head of what is left. */
  lemma {:induction false} DataHere(wire: Wire, p: string, tail: string)
    requires NoNewline(p) && (tail == "" || tail[0] == '\n')
    ensures DataText(wire, "data:" + p + tail) == wire.trim(p)
  {
    var line := "data:" + p;
    assert forall c <- line :: c in "data:" || c in p;
    LineEndAt(line, tail);
    var group := line + tail;
    assert group[..5] == "data:" && group[5..|line|] == p;
  }

  /** Any other line is passed over. */
  lemma {:induction false} LinePassed(wire: Wire, line: string, rest: string)
    requires OtherLine(line)
    ensures DataText(wire, line + "\n" + rest) == DataText(wire, rest)
  {
    var tail := "\n" + rest;
    LineEndAt(line, tail);
    var group := line + tail;
    assert line + "\n" + rest == group && group[|line| + 1..] == rest;
    if |line| >= 5 { PrefixOfBoth("data:", line, tail); }
    hide DataText;
    DataUnfolds(wire, group);
    if rest == "" { NoData(wire); }
  }

  lemma {:induction false} DataUnfolds(wire: Wire, group: string)
    requires group != ""
    ensures var end := LineEnd(group);
            DataText(wire, group) == if end >= 5 && group[..5] == "data:" then wire.trim(group[5..end])
                                     else if end == |group| then "" else DataText(wire, group[end + 1..])
  {
  }

  lemma NoData(wire: Wire)
    ensures DataText(wire, "") == ""
  {
  }

  lemma {:induction false} LinesPassed(wire: Wire, lines: seq<string>, rest: string)
    requires forall line <- lines :: OtherLine(line)
    ensures DataText(wire, Joined(lines) + rest) == DataText(wire, rest)
  {
    if lines == [] {
      assert Joined(lines) + rest == rest;
    } else {
      hide OtherLine, DataText;
      LinesPassed(wire, lines[1..], rest);
      assert lines[0] in lines;
      LinePassed(wire, lines[0], Joined(lines[1..]) + rest);
      assert Joined(lines) + rest == lines[0] + "\n" + (Joined(lines[1..]) + rest);
    }
  }

  /**
   * A group is read for its first data line, whatever lines stand before it and whatever comes after: the trimmed
   * payload decoded, and nothing when that is empty or the stream's end mark.
   */
  lemma {:induction false} FirstDataLineIsRead(wire: Wire, lines: seq<string>, p: string, tail: string)
    requires (forall line <- lines :: OtherLine(line)) && NoNewline(p) && (tail == "" || tail[0] == '\n')
    ensures Read(wire, Joined(lines) + "data:" + p + tail)
            == if wire.trim(p) == "" || wire.trim(p) == "[DONE]" then None else wire.decode(wire.trim(p))
  {
    assert Joined(lines) + "data:" + p + tail == Joined(lines) + ("data:" + p + tail);
    hide DataText, OtherLine;
    LinesPassed(wire, lines, "data:" + p + tail);
    DataHere(wire, p, tail);
  }

  /** A group with no data line says nothing, whether or not its last line is ended. */
  lemma {:induction false} NoDataLineIsNothing(wire: Wire, lines: seq<string>, last: string)
    requires (forall line <- lines :: OtherLine(line)) && OtherLine(last)
    ensures Read(wire, Joined(lines) + last).None?
  {
    hide DataText;
    LinesPassed(wire, lines, last);
    if last == "" {
      NoData(wire);
    } else {
      LineEndAt(last, "");
      assert last + "" == last;
      DataUnfolds(wire, last);
      if |last| >= 5 { PrefixOfBoth("data:", last, ""); }
    }
  }

  // Writing in that form.

  /** An event's name, its payload and the payload's reading, and the trimming of a data line. */
  datatype Codec = Codec(name: Event -> string, show: Event -> string, parse: string -> Option<Event>,
                         trim: string -> string)

  /** Payloads are JSON on one line: never empty, never the end mark, and they read back. */
  ghost predicate CodecLawful(c: Codec) {
    forall e ::
      && NoNewline(c.name(e)) && NoNewline(c.show(e)) && c.show(e) != "" && c.show(e) != "[DONE]"
      && c.parse(c.show(e)) == Some(e) && c.trim(" " + c.show(e)) == c.show(e)
  }

  function WireOf(c: Codec): Wire {
    Wire(c.parse, (e: Event) => "event: " + c.name(e) + "\n" + "data: " + c.show(e), c.trim)
  }

  lemma {:induction false} LineThenWhole(line: string, rest: string)
    requires NoNewline(line) && Next(BlankLine, rest + "\n\n") == |rest| && rest != "" && rest[0] != '\n'
    ensures Next(BlankLine, line + "\n" + rest + "\n\n") == |line| + 1 + |rest|
  {
    var g := line + "\n" + rest + "\n\n";
    if line == "" {
      assert g[1..] == rest + "\n\n" && g[1] == rest[0];
    } else {
      assert g[0] == line[0] && line[0] in line && forall c <- line[1..] :: c in line;
      assert g[1..] == line[1..] + "\n" + rest + "\n\n";
      LineThenWhole(line[1..], rest);
    }
  }

  lemma {:induction false} LineIsWhole(line: string)
    requires NoNewline(line)
    ensures Next(BlankLine, line + "\n\n") == |line|
  {
    var g := line + "\n\n";
    if line == "" {
      assert g == "\n\n";
    } else {
      assert g[0] == line[0] && line[0] in line && forall c <- line[1..] :: c in line;
      assert g[1..] == line[1..] + "\n\n";
      LineIsWhole(line[1..]);
    }
  }

  /** What is written as an event line and a data line reads back as the event, and is a group of its own. */
  lemma WrittenIsLawful(c: Codec)
    requires CodecLawful(c)
    ensures WireLawful(WireOf(c))
  {
    forall e: Event
      ensures Read(WireOf(c), WireOf(c).write(e)) == Some(e) && Whole(WireOf(c).write(e))
    {
      OneIsLawful(c, e);
    }
  }

  lemma {:induction false} OneIsLawful(c: Codec, e: Event)
    requires CodecLawful(c)
    ensures Read(WireOf(c), WireOf(c).write(e)) == Some(e) && Whole(WireOf(c).write(e))
  {
    var name, payload := c.name(e), c.show(e);
    assert NoNewline(name) && NoNewline(payload) && c.trim(" " + payload) == payload;
    assert c.parse(payload) == Some(e) && payload != "" && payload != "[DONE]";
    hide CodecLawful, Read, Whole, NoNewline;
    assert WireOf(c).write(e) == "event: " + name + "\n" + "data: " + payload;
    FormReads(WireOf(c), name, payload);
    FormIsWhole(name, payload);
  }

  lemma {:induction false} FormReads(wire: Wire, name: string, payload: string)
    requires NoNewline(name) && NoNewline(payload) && wire.trim(" " + payload) == payload
    ensures Read(wire, "event: " + name + "\n" + "data: " + payload)
            == if payload == "" || payload == "[DONE]" then None else wire.decode(payload)
  {
    var first, p := "event: " + name, " " + payload;
    assert forall x <- first :: x in "event: " || x in name;
    assert forall x <- p :: x == ' ' || x in payload;
    assert first[0] == 'e';
    OneLineJoined(first);
    assert "data: " + payload == "data:" + p;
    assert first + "\n" + "data: " + payload == Joined([first]) + "data:" + p + "";
    assert OtherLine(first) && NoNewline(p);
    hide Joined, Read, OtherLine, NoNewline;
    FirstDataLineIsRead(wire, [first], p, "");
  }

  lemma {:induction false} FormIsWhole(name: string, payload: string)
    requires NoNewline(name) && NoNewline(payload)
    ensures Whole("event: " + name + "\n" + "data: " + payload)
  {
    var first, data := "event: " + name, "data: " + payload;
    assert forall x <- first :: x in "event: " || x in name;
    assert forall x <- data :: x in "data: " || x in payload;
    Regrouped(first, "data: ", payload);
    assert NoNewline(first) && NoNewline(data) && data[0] == 'd';
    hide NoNewline, Whole;
    TwoLinesWhole(first, data);
  }

  lemma Regrouped(a: string, b: string, c: string)
    ensures a + "\n" + b + c == a + "\n" + (b + c)
  {
  }

  lemma TwoLinesWhole(first: string, data: string)
    requires NoNewline(first) && NoNewline(data) && data != "" && data[0] != '\n'
    ensures Whole(first + "\n" + data)
  {
    LineIsWhole(data);
    LineThenWhole(first, data);
    hide Next;
    WholeMeans(first + "\n" + data);
  }

  lemma OneLineJoined(line: string)
    ensures Joined([line]) == line + "\n"
  {
    assert [line][1..] == [];
  }

  lemma WholeMeans(g: string)
    ensures Whole(g) <==> g != "" && Next(BlankLine, g + "\n\n") == |g|
  {
  }
}
