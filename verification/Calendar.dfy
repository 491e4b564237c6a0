/** iCalendar text escaping and line folding (sections 3.3.11 and 3.1 of RFC 5545). */
module Calendar {
  import opened Wrappers
  import opened Strings

  // ---------------------------------------------------------------------
  // Escaping
  // ---------------------------------------------------------------------

  /** `replaceAll` of one character by a string. */
  function ReplaceAll(s: string, c: char, by': string): string {
    if s == [] then [] else (if s[0] == c then by' else [s[0]]) + ReplaceAll(s[1..], c, by')
  }

  /** `replace(/\r?\n/g, "\\n")`: a line feed, with the carriage return before it if there is one. */
  function ReplaceNewlines(s: string): string {
    if s == [] then []
    else if s[0] == '\n' then ['\\', 'n'] + ReplaceNewlines(s[1..])
    else if s[0] == '\r' && |s| > 1 && s[1] == '\n' then ['\\', 'n'] + ReplaceNewlines(s[2..])
    else [s[0]] + ReplaceNewlines(s[1..])
  }

  function EscapeIcsText(s: string): string {
    var backslashes := ReplaceAll(s, '\\', ['\\', '\\']);
    var semicolons := ReplaceAll(backslashes, ';', ['\\', ';']);
    var commas := ReplaceAll(semicolons, ',', ['\\', ',']);
    ReplaceNewlines(commas)
  }

  /** The reader's side of section 3.3.11. */
  function Unescape(s: string): string {
    if s == [] then []
    else if s[0] == '\\' && |s| > 1 then
      (if s[1] == 'n' || s[1] == 'N' then ['\n'] else [s[1]]) + Unescape(s[2..])
    else [s[0]] + Unescape(s[1..])
  }

  /** Every CRLF read as a bare line feed. */
  function LineFeeds(s: string): string {
    if s == [] then []
    else if s[0] == '\r' && |s| > 1 && s[1] == '\n' then ['\n'] + LineFeeds(s[2..])
    else [s[0]] + LineFeeds(s[1..])
  }

  /** What one character becomes under the three character replacements. */
  function EscapeChar(c: char): string {
    if c == '\\' || c == ';' || c == ',' then ['\\', c] else [c]
  }

  function EscapeChars(s: string): string {
    if s == [] then [] else EscapeChar(s[0]) + EscapeChars(s[1..])
  }

  lemma {:induction false} ReplaceAcross(a: string, b: string, c: char, by': string)
    ensures ReplaceAll(a + b, c, by') == ReplaceAll(a, c, by') + ReplaceAll(b, c, by')
  {
    if a == [] {
      assert a + b == b;
    } else {
      assert (a + b)[1..] == a[1..] + b;
      ReplaceAcross(a[1..], b, c, by');
    }
  }

  lemma ReplaceShort(a: char, b: char, c: char, by': string)
    ensures ReplaceAll([a], c, by') == if a == c then by' else [a]
    ensures ReplaceAll([a, b], c, by') == ReplaceAll([a], c, by') + ReplaceAll([b], c, by')
  {
    assert [a, b][1..] == [b] && [a][1..] == [] && [b][1..] == [];
  }

  /** One character through the three passes: no pass touches what an earlier one put in. */
  lemma EscapeOne(c: char)
    ensures ReplaceAll(ReplaceAll(ReplaceAll([c], '\\', ['\\', '\\']), ';', ['\\', ';']), ',', ['\\', ','])
        == EscapeChar(c)
  {
    ReplaceShort(c, c, '\\', ['\\', '\\']);
    ReplaceShort(c, c, ';', ['\\', ';']);
    ReplaceShort(c, c, ',', ['\\', ',']);
    ReplaceShort('\\', c, ';', ['\\', ';']);
    ReplaceShort('\\', c, ',', ['\\', ',']);
    ReplaceShort('\\', '\\', ';', ['\\', ';']);
    ReplaceShort('\\', '\\', ',', ['\\', ',']);
    ReplaceShort('\\', ';', ',', ['\\', ',']);
  }

  lemma {:induction false} ThreePasses(s: string)
    ensures ReplaceAll(ReplaceAll(ReplaceAll(s, '\\', ['\\', '\\']), ';', ['\\', ';']), ',', ['\\', ','])
        == EscapeChars(s)
  {
    if s != [] {
      var c, rest := [s[0]], s[1..];
      assert s == c + rest;
      ReplaceAcross(c, rest, '\\', ['\\', '\\']);
      var c1, r1 := ReplaceAll(c, '\\', ['\\', '\\']), ReplaceAll(rest, '\\', ['\\', '\\']);
      ReplaceAcross(c1, r1, ';', ['\\', ';']);
      var c2, r2 := ReplaceAll(c1, ';', ['\\', ';']), ReplaceAll(r1, ';', ['\\', ';']);
      ReplaceAcross(c2, r2, ',', ['\\', ',']);
      EscapeOne(s[0]);
      ThreePasses(rest);
    }
  }

  /** An escaped character is read back, whatever follows. */
  lemma UnescapeOne(c: char, rest: string)
    requires c == '\\' || c == ';' || c == ','
    ensures Unescape(ReplaceNewlines(['\\', c] + rest)) == [c] + Unescape(ReplaceNewlines(rest))
  {
    assert (['\\', c] + rest)[1..] == [c] + rest && ([c] + rest)[1..] == rest;
    assert ReplaceNewlines([c] + rest) == [c] + ReplaceNewlines(rest);
    var tail := ReplaceNewlines(rest);
    assert ReplaceNewlines(['\\', c] + rest) == ['\\', c] + tail;
    hide ReplaceNewlines;
    assert (['\\', c] + tail)[2..] == tail;
  }

  lemma UnescapeBreak(tail: string)
    ensures Unescape(['\\', 'n'] + tail) == ['\n'] + Unescape(tail)
  {
    assert (['\\', 'n'] + tail)[2..] == tail;
  }

  lemma UnescapePlain(c: char, tail: string)
    requires c != '\\'
    ensures Unescape([c] + tail) == [c] + Unescape(tail)
  {
    assert ([c] + tail)[1..] == tail;
  }

  /** Reading escaped text gives the original back, with CRLF read as a line feed. */
  lemma {:induction false} UnescapeEscapedChars(s: string)
    ensures Unescape(ReplaceNewlines(EscapeChars(s))) == LineFeeds(s)
  {
    if s != [] {
      var c, rest := s[0], EscapeChars(s[1..]);
      UnescapeEscapedChars(s[1..]);
      hide Unescape;
      if c == '\\' || c == ';' || c == ',' {
        hide ReplaceNewlines;
        UnescapeOne(c, rest);
      } else if c == '\r' && |s| > 1 && s[1] == '\n' {
        UnescapeEscapedChars(s[2..]);
        assert s[1..][1..] == s[2..];
        var after := EscapeChars(s[2..]);
        assert EscapeChars(s[1..]) == ['\n'] + after;
        assert EscapeChars(s) == ['\r', '\n'] + after;
        assert (['\r', '\n'] + after)[2..] == after;
        UnescapeBreak(ReplaceNewlines(after));
      } else {
        PlainNext(s);
        var tail := ReplaceNewlines(rest);
        if c == '\n' {
          UnescapeBreak(tail);
        } else {
          UnescapePlain(c, tail);
        }
      }
    }
  }

  /** A character that is neither escaped nor the start of CRLF. */
  lemma PlainNext(s: string)
    requires s != [] && s[0] != '\\' && s[0] != ';' && s[0] != ','
    requires !(s[0] == '\r' && |s| > 1 && s[1] == '\n')
    ensures var tail := ReplaceNewlines(EscapeChars(s[1..]));
            ReplaceNewlines(EscapeChars(s)) == (if s[0] == '\n' then ['\\', 'n'] else [s[0]]) + tail
  {
    var rest := EscapeChars(s[1..]);
    assert EscapeChars(s) == [s[0]] + rest;
    assert ([s[0]] + rest)[1..] == rest;
    if |s| > 1 {
      assert rest == EscapeChar(s[1]) + EscapeChars(s[1..][1..]);
    }
  }

  lemma EscapeRoundTrip(s: string)
    ensures Unescape(EscapeIcsText(s)) == LineFeeds(s)
  {
    ThreePasses(s);
    UnescapeEscapedChars(s);
  }

  /** Escaped text has no line feed left in it, so it is one content line. */
  lemma {:induction false} NoLineFeedLeft(s: string)
    ensures Lacks(ReplaceNewlines(s), '\n')
  {
    if s != [] {
      NoLineFeedLeft(s[1..]);
      if |s| > 1 {
        NoLineFeedLeft(s[2..]);
      }
    }
  }

  // ---------------------------------------------------------------------
  // Folding
  // ---------------------------------------------------------------------

  const CRLF: string := ['\r', '\n']
  const FOLD: string := ['\r', '\n', ' ']

  /** Octets of one character in UTF-8. */
  function CharOctets(c: char): (n: nat)
    ensures 1 <= n <= 4
  {
    var u := c as int;
    if u < 0x80 then 1 else if u < 0x800 then 2 else if u < 0x1_0000 then 3 else 4
  }

  function Octets(s: string): nat {
    if s == [] then 0 else Octets(s[..|s| - 1]) + CharOctets(s[|s| - 1])
  }

  /** How many leading characters fit into `limit` octets. */
  function Fit(s: string, limit: int): (n: nat)
    ensures n <= |s|
  {
    if s == [] || CharOctets(s[0]) > limit then 0 else 1 + Fit(s[1..], limit - CharOctets(s[0]))
  }

  /** A line cut into the longest pieces that fit: `limit` octets first, then 74 beside the leading blank. */
  function Chunks(line: string, limit: nat): (parts: seq<string>)
    requires limit >= 4
    ensures parts != []
    decreases |line|
  {
    if Octets(line) <= limit then [line]
    else if line == [] then [line]
    else [line[..Fit(line, limit)]] + Chunks(line[Fit(line, limit)..], 74)
  }

  function Folded(line: string): string {
    Join(Chunks(line, 75), FOLD)
  }

  lemma {:induction false} OctetsAcross(a: string, b: string)
    ensures Octets(a + b) == Octets(a) + Octets(b)
  {
    if b == [] {
      assert a + b == a;
    } else {
      assert (a + b)[..|a + b| - 1] == a + b[..|b| - 1];
      OctetsAcross(a, b[..|b| - 1]);
    }
  }

  lemma {:induction false} FitStops(current: string, rest: string, limit: int)
    requires Octets(current) <= limit && rest != [] && Octets(current) + CharOctets(rest[0]) > limit
    ensures Fit(current + rest, limit) == |current|
  {
    if current == [] {
      assert current + rest == rest;
    } else {
      var c, tail := [current[0]], current[1..];
      assert current == c + tail;
      OctetsAcross(c, tail);
      assert c[..0] == [];
      assert (current + rest)[1..] == tail + rest;
      FitStops(tail, rest, limit - CharOctets(current[0]));
    }
  }

  lemma ChunkCut(current: string, rest: string, limit: nat)
    requires limit >= 4 && Octets(current) <= limit && rest != [] && Octets(current) + CharOctets(rest[0]) > limit
    ensures Chunks(current + rest, limit) == [current] + Chunks(rest, 74)
  {
    FitStops(current, rest, limit);
    OctetsAcross(current, rest);
    OctetsAcross([rest[0]], rest[1..]);
    assert [rest[0]][..0] == [];
    assert rest == [rest[0]] + rest[1..];
    assert (current + rest)[..|current|] == current && (current + rest)[|current|..] == rest;
  }

  function Limit(parts: seq<string>): nat {
    if |parts| == 0 then 75 else 74
  }

  /** Part-way through a line: `parts` are cut, `current` fits, `rest` is still to come. */
  ghost predicate Folding(line: string, parts: seq<string>, current: string, rest: string) {
    && Octets(current) <= Limit(parts)
    && parts + Chunks(current + rest, Limit(parts)) == Chunks(line, 75)
  }

  lemma FoldCut(line: string, parts: seq<string>, current: string, rest: string)
    requires Folding(line, parts, current, rest)
    requires rest != [] && Octets(current) + CharOctets(rest[0]) > Limit(parts)
    ensures Folding(line, parts + [current], [], rest)
  {
    ChunkCut(current, rest, Limit(parts));
    assert [] + rest == rest;
    hide Chunks;
    assert (parts + [current]) + Chunks(rest, 74) == parts + ([current] + Chunks(rest, 74));
  }

  lemma FoldTake(line: string, parts: seq<string>, current: string, rest: string)
    requires Folding(line, parts, current, rest)
    requires rest != [] && Octets(current) + CharOctets(rest[0]) <= Limit(parts)
    ensures Folding(line, parts, current + [rest[0]], rest[1..])
    ensures Octets(current + [rest[0]]) == Octets(current) + CharOctets(rest[0])
  {
    assert (current + [rest[0]])[..|current|] == current;
    assert current + rest == current + [rest[0]] + rest[1..];
    hide Chunks;
  }

  lemma FoldEnds(line: string, parts: seq<string>, current: string)
    requires Folding(line, parts, current, [])
    ensures parts + [current] == Chunks(line, 75)
  {
    assert current + [] == current;
  }

  lemma ShortLine(line: string)
    requires Octets(line) <= 75
    ensures Folded(line) == line
  {
  }

  lemma FoldBegins(line: string)
    ensures Folding(line, [], [], line) && Octets([]) == 0
  {
    assert [] + line == line;
  }

  method FoldIcsLine(line: string) returns (folded: string)
    ensures folded == Folded(line)
  {
    hide Chunks, Octets, CharOctets;
    if Octets(line) <= 75 {
      ShortLine(line);
      return line;
    }
    var parts: seq<string> := [];
    var current: string := [];
    var currentOctets := 0;
    FoldBegins(line);
    hide Folding, Join, Limit;
    assert line[0..] == line;
    for i := 0 to |line|
      invariant currentOctets == Octets(current)
      invariant Folding(line, parts, current, line[i..])
    {
      var ch := line[i];
      assert line[i..][0] == ch && line[i..][1..] == line[i + 1..];
      if currentOctets + CharOctets(ch) > Limit(parts) {
        FoldCut(line, parts, current, line[i..]);
        parts := parts + [current];
        current := [];
        currentOctets := 0;
      }
      FoldTake(line, parts, current, line[i..]);
      current := current + [ch];
      currentOctets := currentOctets + CharOctets(ch);
    }
    assert line[|line|..] == [];
    FoldEnds(line, parts, current);
    parts := parts + [current];
    folded := Join(parts, FOLD);
  }

  // ---------------------------------------------------------------------
  // What a reader makes of folded lines
  // ---------------------------------------------------------------------

  /** Section 3.1: a line break followed by one blank is not there. */
  function Unfold(s: string): string {
    if s == [] then []
    else if |s| >= 3 && s[0] == '\r' && s[1] == '\n' && (s[2] == ' ' || s[2] == '\t') then Unfold(s[3..])
    else [s[0]] + Unfold(s[1..])
  }

  /** The physical lines between line breaks. */
  function PhysicalLines(s: string): (lines: seq<string>)
    ensures lines != []
  {
    if s == [] then [[]]
    else if |s| >= 2 && s[0] == '\r' && s[1] == '\n' then [[]] + PhysicalLines(s[2..])
    else
      var rest := PhysicalLines(s[1..]);
      [[s[0]] + rest[0]] + rest[1..]
  }

  function Concat(parts: seq<string>): string {
    if parts == [] then [] else parts[0] + Concat(parts[1..])
  }

  lemma {:induction false} ChunksConcat(line: string, limit: nat)
    requires limit >= 4
    ensures Concat(Chunks(line, limit)) == line
    decreases |line|
  {
    if Octets(line) <= limit || line == [] {
      assert Chunks(line, limit)[1..] == [];
    } else {
      var k := Fit(line, limit);
      ChunksConcat(line[k..], 74);
      assert Chunks(line, limit)[1..] == Chunks(line[k..], 74);
      assert line[..k] + line[k..] == line;
    }
  }

  lemma {:induction false} FitFits(s: string, limit: nat)
    ensures Octets(s[..Fit(s, limit)]) <= limit
  {
    if s != [] && CharOctets(s[0]) <= limit {
      var k := Fit(s[1..], limit - CharOctets(s[0]));
      FitFits(s[1..], limit - CharOctets(s[0]));
      assert s[..k + 1] == [s[0]] + s[1..][..k];
      OctetsAcross([s[0]], s[1..][..k]);
      assert [s[0]][..0] == [];
    }
  }

  lemma {:induction false} ChunksFit(line: string, limit: nat)
    requires limit >= 4
    ensures var parts := Chunks(line, limit);
            Octets(parts[0]) <= limit && forall i :: 1 <= i < |parts| ==> Octets(parts[i]) <= 74
    decreases |line|
  {
    if !(Octets(line) <= limit || line == []) {
      var k := Fit(line, limit);
      FitFits(line, limit);
      ChunksFit(line[k..], 74);
      var parts := Chunks(line, limit);
      forall i | 1 <= i < |parts| ensures Octets(parts[i]) <= 74 {
        assert parts[i] == Chunks(line[k..], 74)[i - 1];
      }
    }
  }

  lemma {:induction false} ChunksLack(line: string, limit: nat, c: char)
    requires limit >= 4 && Lacks(line, c)
    ensures forall p :: p in Chunks(line, limit) ==> Lacks(p, c)
    decreases |line|
  {
    if !(Octets(line) <= limit || line == []) {
      ChunksLack(line[Fit(line, limit)..], 74, c);
    }
  }

  /** Text without a line feed is read as it stands, up to the line break after it. */
  lemma {:induction false} UnfoldAcross(a: string, rest: string)
    requires Lacks(a, '\n')
    ensures Unfold(a + FOLD + rest) == a + Unfold(rest)
    ensures Unfold(a) == a
  {
    if a == [] {
      assert a + FOLD + rest == FOLD + rest;
      assert (FOLD + rest)[3..] == rest;
      assert a + Unfold(rest) == Unfold(rest);
    } else {
      assert (a + FOLD + rest)[1..] == a[1..] + FOLD + rest;
      UnfoldAcross(a[1..], rest);
      assert [a[0]] + a[1..] == a;
    }
  }

  lemma {:induction false} UnfoldJoined(parts: seq<string>)
    requires parts != [] && forall p :: p in parts ==> Lacks(p, '\n')
    ensures Unfold(Join(parts, FOLD)) == Concat(parts)
  {
    assert parts[0] in parts;
    if |parts| == 1 {
      UnfoldAcross(parts[0], []);
      assert parts[1..] == [];
    } else {
      assert forall p :: p in parts[1..] ==> p in parts;
      UnfoldJoined(parts[1..]);
      UnfoldAcross(parts[0], Join(parts[1..], FOLD));
    }
  }

  /** Unfolding a folded line gives it back. */
  lemma UnfoldFolded(line: string)
    requires Lacks(line, '\n')
    ensures Unfold(Folded(line)) == line
  {
    ChunksLack(line, 75, '\n');
    ChunksConcat(line, 75);
    UnfoldJoined(Chunks(line, 75));
  }

  lemma {:induction false} LinesAcross(a: string, rest: string)
    requires Lacks(a, '\n')
    ensures PhysicalLines(a + CRLF + rest) == [a] + PhysicalLines(rest)
    ensures PhysicalLines(a) == [a]
  {
    if a == [] {
      assert a + CRLF + rest == CRLF + rest;
      assert (CRLF + rest)[2..] == rest;
    } else {
      assert (a + CRLF + rest)[1..] == a[1..] + CRLF + rest;
      LinesAcross(a[1..], rest);
      assert [a[0]] + a[1..] == a;
    }
  }

  ghost predicate AllFit(lines: seq<string>) {
    forall l :: l in lines ==> Octets(l) <= 75
  }

  lemma OneMoreLine(head: string, tail: string)
    requires Lacks(head, '\n') && Octets(head) <= 75
    ensures AllFit(PhysicalLines(tail)) ==> AllFit(PhysicalLines(head + CRLF + tail))
    ensures AllFit(PhysicalLines(head))
  {
    LinesAcross(head, tail);
    hide PhysicalLines, Octets, Lacks;
  }

  ghost predicate PartsFit(parts: seq<string>) {
    forall i :: 1 <= i < |parts| ==> Octets(parts[i]) <= 74
  }

  lemma BlankFits(part: string)
    requires Octets(part) <= 74 && Lacks(part, '\n')
    ensures Octets([' '] + part) <= 75 && Lacks([' '] + part, '\n')
  {
    OctetsAcross([' '], part);
    assert [' '][..0] == [];
  }

  lemma {:induction false} FoldedLinesFit(parts: seq<string>, first: string)
    requires parts != [] && (forall p :: p in parts[1..] ==> Lacks(p, '\n')) && Lacks(first, '\n')
    requires Octets(first) <= 75 && PartsFit(parts)
    ensures AllFit(PhysicalLines(Join([first] + parts[1..], FOLD)))
  {
    var rest := parts[1..];
    if rest == [] {
      assert [first] + rest == [first];
      OneMoreLine(first, []);
    } else {
      var next := [' '] + rest[0];
      assert rest[0] in rest;
      BlankFits(rest[0]);
      hide Octets, Lacks, PhysicalLines, AllFit;
      assert forall p :: p in rest[1..] ==> p in rest;
      FoldedLinesFit(rest, next);
      OneMoreLine(first, Join([next] + rest[1..], FOLD));
      JoinNext(first, rest);
    }
  }

  /** The blank of a fold read as the start of the next physical line. */
  lemma JoinNext(first: string, rest: seq<string>)
    requires rest != []
    ensures Join([first] + rest, FOLD) == first + CRLF + Join([[' '] + rest[0]] + rest[1..], FOLD)
  {
    assert ([first] + rest)[1..] == rest;
    assert Join([first] + rest, FOLD) == first + FOLD + Join(rest, FOLD);
    JoinPrefix([' '], rest);
    hide Join;
    BlankAfterBreak(first, Join(rest, FOLD));
  }

  lemma BlankAfterBreak(first: string, tail: string)
    ensures first + FOLD + tail == first + CRLF + ([' '] + tail)
  {
    assert FOLD == CRLF + [' '];
  }

  lemma JoinPrefix(pre: string, rest: seq<string>)
    requires rest != []
    ensures Join([pre + rest[0]] + rest[1..], FOLD) == pre + Join(rest, FOLD)
  {
    var more := [pre + rest[0]] + rest[1..];
    assert more[1..] == rest[1..];
    if |rest| > 1 {
      var tail := Join(rest[1..], FOLD);
      assert Join(more, FOLD) == (pre + rest[0]) + FOLD + tail;
      assert Join(rest, FOLD) == rest[0] + FOLD + tail;
      hide Join;
      Regroup(pre, rest[0], tail);
    }
  }

  lemma Regroup(pre: string, first: string, tail: string)
    ensures (pre + first) + FOLD + tail == pre + (first + FOLD + tail)
  {
  }

  /** No physical line of a folded content line is longer than 75 octets. */
  lemma FoldedFits(line: string)
    requires Lacks(line, '\n')
    ensures AllFit(PhysicalLines(Folded(line)))
  {
    var parts := Chunks(line, 75);
    ChunksLack(line, 75, '\n');
    ChunksFit(line, 75);
    assert parts[0] in parts && forall p :: p in parts[1..] ==> p in parts;
    assert [parts[0]] + parts[1..] == parts;
    hide Chunks, Octets, Lacks;
    FoldedLinesFit(parts, parts[0]);
  }

  // ---------------------------------------------------------------------
  // The file
  // ---------------------------------------------------------------------

  /** `start` and `end` are the UTC stamps computed from the event's start. */
  datatype CalendarEvent = CalendarEvent(id: string, name: string, description: string, location: string,
                                         start: string, end: string)

  const PRODUCT: string := "PRODID:-//" + "Cube Planner" + "//cubeplanner.pl" + "//EN"

  function ContentLines(e: CalendarEvent): seq<string> {
    ["BEGIN:VCALENDAR", "VERSION:2.0", PRODUCT, "BEGIN:VEVENT",
     "UID:event-" + e.id + "@cubeplanner.pl", "DTSTAMP:" + e.start, "DTSTART:" + e.start, "DTEND:" + e.end,
     "SUMMARY:" + EscapeIcsText(e.name)]
    + (if e.description != "" then ["DESCRIPTION:" + EscapeIcsText(e.description)] else [])
    + (if e.location != "" then ["LOCATION:" + EscapeIcsText(e.location)] else [])
    + ["END:VEVENT", "END:VCALENDAR"]
  }

  function FoldAll(lines: seq<string>): string {
    if lines == [] then [] else Folded(lines[0]) + CRLF + FoldAll(lines[1..])
  }

  method BuildIcs(e: CalendarEvent) returns (text: string)
    ensures text == FoldAll(ContentLines(e))
  {
    var lines := ["BEGIN:VCALENDAR", "VERSION:2.0", PRODUCT, "BEGIN:VEVENT",
                  "UID:event-" + e.id + "@cubeplanner.pl", "DTSTAMP:" + e.start, "DTSTART:" + e.start, "DTEND:" + e.end,
                  "SUMMARY:" + EscapeIcsText(e.name)];
    if e.description != "" {
      lines := lines + ["DESCRIPTION:" + EscapeIcsText(e.description)];
    }
    if e.location != "" {
      lines := lines + ["LOCATION:" + EscapeIcsText(e.location)];
    }
    lines := lines + ["END:VEVENT", "END:VCALENDAR"];
    assert lines == ContentLines(e);
    hide *;
    text := [];
    assert [] + FoldAll(lines) == FoldAll(lines) && lines[0..] == lines;
    for i := 0 to |lines|
      invariant text + FoldAll(lines[i..]) == FoldAll(lines)
    {
      var folded := FoldIcsLine(lines[i]);
      FoldNext(lines, i, text);
      text := text + (folded + CRLF);
    }
    FoldNone(lines, text);
  }

  lemma FoldNext(lines: seq<string>, i: nat, text: string)
    requires i < |lines|
    ensures text + FoldAll(lines[i..]) == text + (Folded(lines[i]) + CRLF) + FoldAll(lines[i + 1..])
  {
    assert lines[i..][0] == lines[i] && lines[i..][1..] == lines[i + 1..];
    assert text + ((Folded(lines[i]) + CRLF) + FoldAll(lines[i + 1..])) == text + (Folded(lines[i]) + CRLF)
        + FoldAll(lines[i + 1..]);
  }

  lemma FoldNone(lines: seq<string>, text: string)
    ensures text + FoldAll(lines[|lines|..]) == text
  {
    assert lines[|lines|..] == [];
  }

  ghost predicate StartsPlain(s: string) {
    s == [] || (s[0] != ' ' && s[0] != '\t')
  }

  /** A line break before anything but a blank stays. */
  lemma {:induction false} UnfoldBreak(a: string, rest: string)
    requires Lacks(a, '\n') && StartsPlain(rest)
    ensures Unfold(a + CRLF + rest) == a + CRLF + Unfold(rest)
  {
    if a == [] {
      assert a + CRLF + rest == CRLF + rest;
      assert (CRLF + rest)[1..] == ['\n'] + rest;
      assert (['\n'] + rest)[1..] == rest;
      assert a + CRLF + Unfold(rest) == ['\r'] + (['\n'] + Unfold(rest));
    } else {
      assert (a + CRLF + rest)[1..] == a[1..] + CRLF + rest;
      UnfoldBreak(a[1..], rest);
      assert [a[0]] + (a[1..] + CRLF + Unfold(rest)) == a + CRLF + Unfold(rest);
    }
  }

  lemma {:induction false} UnfoldParts(parts: seq<string>, rest: string)
    requires parts != [] && (forall p :: p in parts ==> Lacks(p, '\n')) && StartsPlain(rest)
    ensures Unfold(Join(parts, FOLD) + CRLF + rest) == Concat(parts) + CRLF + Unfold(rest)
  {
    assert parts[0] in parts;
    hide Unfold, Lacks, StartsPlain;
    if |parts| == 1 {
      UnfoldBreak(parts[0], rest);
      assert parts[1..] == [];
    } else {
      assert forall p :: p in parts[1..] ==> p in parts;
      assert Join(parts, FOLD) == parts[0] + FOLD + Join(parts[1..], FOLD);
      assert Concat(parts) == parts[0] + Concat(parts[1..]);
      UnfoldParts(parts[1..], rest);
      var tail := Join(parts[1..], FOLD) + CRLF + rest;
      UnfoldAcross(parts[0], tail);
      hide Concat, Join;
      RegroupTail(parts[0], Join(parts[1..], FOLD), rest);
      RegroupRead(parts[0], Concat(parts[1..]), Unfold(rest));
    }
  }

  lemma RegroupTail(first: string, more: string, rest: string)
    ensures first + FOLD + more + CRLF + rest == first + FOLD + (more + CRLF + rest)
  {
  }

  lemma RegroupRead(first: string, more: string, rest: string)
    ensures first + (more + CRLF + rest) == (first + more) + CRLF + rest
  {
  }

  lemma UnfoldLine(line: string, rest: string)
    requires Lacks(line, '\n') && StartsPlain(rest)
    ensures Unfold(Folded(line) + CRLF + rest) == line + CRLF + Unfold(rest)
  {
    ChunksLack(line, 75, '\n');
    ChunksConcat(line, 75);
    UnfoldParts(Chunks(line, 75), rest);
  }

  /** A content line: not empty, not starting with a blank, no line feed inside. */
  ghost predicate ContentLine(l: string) {
    l != "" && StartsPlain(l) && Lacks(l, '\n')
  }

  lemma FoldedStartsPlain(line: string, rest: string)
    requires ContentLine(line)
    ensures StartsPlain(Folded(line) + rest)
  {
    if Octets(line) > 75 {
      assert Fit(line, 75) > 0;
    }
    assert Chunks(line, 75)[0] != [] && Chunks(line, 75)[0][0] == line[0];
  }

  function JoinLines(lines: seq<string>): string {
    if lines == [] then [] else lines[0] + CRLF + JoinLines(lines[1..])
  }

  lemma FoldedHead(line: string, rest: string)
    requires ContentLine(line) && StartsPlain(rest)
    ensures StartsPlain(Folded(line) + CRLF + rest)
    ensures Unfold(Folded(line) + CRLF + rest) == line + CRLF + Unfold(rest)
  {
    UnfoldLine(line, rest);
    hide Folded, Unfold, StartsPlain;
    FoldedStartsPlain(line, CRLF + rest);
    assert Folded(line) + (CRLF + rest) == Folded(line) + CRLF + rest;
  }

  ghost predicate AreContentLines(lines: seq<string>) {
    forall i :: 0 <= i < |lines| ==> ContentLine(lines[i])
  }

  lemma {:induction false} UnfoldFile(lines: seq<string>)
    requires AreContentLines(lines)
    ensures StartsPlain(FoldAll(lines)) && Unfold(FoldAll(lines)) == JoinLines(lines)
  {
    if lines != [] {
      UnfoldFile(lines[1..]);
      hide Folded, Unfold, StartsPlain, ContentLine;
      assert ContentLine(lines[0]);
      FoldedHead(lines[0], FoldAll(lines[1..]));
    }
  }

  lemma {:induction false} LinesOfFile(lines: seq<string>)
    requires AreContentLines(lines)
    ensures PhysicalLines(JoinLines(lines)) == lines + [[]]
  {
    if lines != [] {
      LinesOfFile(lines[1..]);
      hide PhysicalLines;
      assert ContentLine(lines[0]);
      LinesAcross(lines[0], JoinLines(lines[1..]));
    }
  }

  lemma LacksAcross(a: string, b: string, c: char)
    requires Lacks(a, c) && Lacks(b, c)
    ensures Lacks(a + b, c)
  {
  }

  lemma TextLine(property: string, text: string)
    requires ContentLine(property)
    ensures ContentLine(property + EscapeIcsText(text))
  {
    NoLineFeedLeft(ReplaceAll(ReplaceAll(ReplaceAll(text, '\\', ['\\', '\\']), ';', ['\\', ';']), ',', ['\\', ',']));
    LacksAcross(property, EscapeIcsText(text), '\n');
  }

  lemma PlainLine(property: string, text: string, end: string)
    requires ContentLine(property) && Lacks(text, '\n') && Lacks(end, '\n')
    ensures ContentLine(property + text + end)
  {
  }

  lemma StaticLines()
    ensures ContentLine("BEGIN:VCALENDAR") && ContentLine("VERSION:2.0") && ContentLine("BEGIN:VEVENT")
    ensures ContentLine("END:VEVENT") && ContentLine("END:VCALENDAR")
  {
  }

  lemma HeadLines(e: CalendarEvent)
    requires Lacks(e.id, '\n') && Lacks(e.start, '\n') && Lacks(e.end, '\n')
    ensures ContentLine("UID:event-" + e.id + "@cubeplanner.pl")
    ensures ContentLine("DTSTAMP:" + e.start) && ContentLine("DTSTART:" + e.start) && ContentLine("DTEND:" + e.end)
  {
    PlainLine("UID:event-", e.id, "@cubeplanner.pl");
    PlainLine("DTSTAMP:", e.start, "");
    PlainLine("DTSTART:", e.start, "");
    PlainLine("DTEND:", e.end, "");
    assert "DTSTAMP:" + e.start + "" == "DTSTAMP:" + e.start;
    assert "DTSTART:" + e.start + "" == "DTSTART:" + e.start;
    assert "DTEND:" + e.end + "" == "DTEND:" + e.end;
  }

  lemma ProductLine()
    ensures ContentLine(PRODUCT)
  {
    PlainLine("PRODID:-//", "Cube Planner", "//cubeplanner.pl");
    PlainLine("PRODID:-//" + "Cube Planner" + "//cubeplanner.pl", "//EN", "");
    assert PRODUCT + "" == PRODUCT;
  }

  lemma AllContentLines(e: CalendarEvent)
    requires Lacks(e.id, '\n') && Lacks(e.start, '\n') && Lacks(e.end, '\n')
    ensures AreContentLines(ContentLines(e))
  {
    hide ContentLine, Lacks;
    TextLine("SUMMARY:", e.name) by {
      PropertyNames();
    }
    TextLine("DESCRIPTION:", e.description) by {
      PropertyNames();
    }
    TextLine("LOCATION:", e.location) by {
      PropertyNames();
    }
    HeadLines(e);
    ProductLine();
    StaticLines();
    hide EscapeIcsText;
  }

  lemma PropertyNames()
    ensures ContentLine("SUMMARY:") && ContentLine("DESCRIPTION:") && ContentLine("LOCATION:")
  {
  }

  /** What a reader finds under a property: the rest of the first line that starts with it. */
  function ValueOf(lines: seq<string>, property: string): Option<string> {
    if lines == [] then None
    else if property <= lines[0] then Some(lines[0][|property|..])
    else ValueOf(lines[1..], property)
  }

  /** The two part ways at the `i`-th character. */
  ghost predicate PartAt(a: string, b: string, i: nat) {
    i < |a| && i < |b| && a[i] != b[i]
  }

  ghost predicate Part(a: string, b: string) {
    b == [] || PartAt(a, b, 0) || PartAt(a, b, 1) || PartAt(a, b, 2) || PartAt(a, b, 5)
  }

  lemma {:induction false} FirstWith(lines: seq<string>, k: nat, property: string, value: string)
    requires property != [] && k < |lines| && lines[k] == property + value
    requires forall j :: 0 <= j < k ==> Part(property, lines[j])
    ensures ValueOf(lines, property) == Some(value)
  {
    if k > 0 {
      assert Part(property, lines[0]);
      assert forall j :: 0 <= j < k - 1 ==> lines[1..][j] == lines[j + 1];
      FirstWith(lines[1..], k - 1, property, value);
    }
  }

  lemma {:induction false} NoneWith(lines: seq<string>, property: string)
    requires property != [] && forall j :: 0 <= j < |lines| ==> Part(property, lines[j])
    ensures ValueOf(lines, property).None?
  {
    if lines != [] {
      assert Part(property, lines[0]);
      NoneWith(lines[1..], property);
    }
  }

  /** The lines a reader sees: the content lines and what is after the last line break. */
  function Read(e: CalendarEvent): seq<string> {
    ContentLines(e) + [[]]
  }

  lemma StampsRead(e: CalendarEvent)
    ensures ValueOf(Read(e), "UID:") == Some("event-" + e.id + "@cubeplanner.pl")
    ensures ValueOf(Read(e), "DTSTAMP:") == Some(e.start)
    ensures ValueOf(Read(e), "DTSTART:") == Some(e.start)
    ensures ValueOf(Read(e), "DTEND:") == Some(e.end)
  {
    hide EscapeIcsText, ValueOf;
    assert Read(e)[4] == "UID:" + ("event-" + e.id + "@cubeplanner.pl");
    FirstWith(Read(e), 4, "UID:", "event-" + e.id + "@cubeplanner.pl");
    FirstWith(Read(e), 5, "DTSTAMP:", e.start);
    FirstWith(Read(e), 6, "DTSTART:", e.start);
    FirstWith(Read(e), 7, "DTEND:", e.end);
  }

  lemma TextsRead(e: CalendarEvent)
    ensures ValueOf(Read(e), "SUMMARY:") == Some(EscapeIcsText(e.name))
    ensures ValueOf(Read(e), "DESCRIPTION:") == if e.description == "" then None else Some(EscapeIcsText(e.description))
    ensures ValueOf(Read(e), "LOCATION:") == if e.location == "" then None else Some(EscapeIcsText(e.location))
  {
    hide EscapeIcsText, ValueOf;
    FirstWith(Read(e), 8, "SUMMARY:", EscapeIcsText(e.name));
    if e.description == "" {
      NoneWith(Read(e), "DESCRIPTION:");
    } else {
      FirstWith(Read(e), 9, "DESCRIPTION:", EscapeIcsText(e.description));
    }
    if e.location == "" {
      NoneWith(Read(e), "LOCATION:");
    } else {
      FirstWith(Read(e), if e.description == "" then 9 else 10, "LOCATION:", EscapeIcsText(e.location));
    }
  }

  /** A text property's value, unescaped. */
  function TextOf(lines: seq<string>, property: string): Option<string> {
    var value := ValueOf(lines, property);
    if value.None? then None else Some(Unescape(value.value))
  }

  /**
   A reader that unfolds the file and splits it at line breaks gets exactly the
   content lines, and under each property the event's own data: the stamps, the
   name and, unless they are empty, the description and the location, with CRLF
   read as LF.
   */
  lemma FileReads(e: CalendarEvent)
    requires Lacks(e.id, '\n') && Lacks(e.start, '\n') && Lacks(e.end, '\n')
    ensures var lines := PhysicalLines(Unfold(FoldAll(ContentLines(e))));
            && lines == Read(e)
            && ValueOf(lines, "UID:") == Some("event-" + e.id + "@cubeplanner.pl")
            && ValueOf(lines, "DTSTAMP:") == ValueOf(lines, "DTSTART:") == Some(e.start)
            && ValueOf(lines, "DTEND:") == Some(e.end)
            && TextOf(lines, "SUMMARY:") == Some(LineFeeds(e.name))
            && TextOf(lines, "DESCRIPTION:") == (if e.description == "" then None else Some(LineFeeds(e.description)))
            && TextOf(lines, "LOCATION:") == (if e.location == "" then None else Some(LineFeeds(e.location)))
  {
    AllContentLines(e);
    UnfoldFile(ContentLines(e));
    LinesOfFile(ContentLines(e));
    StampsRead(e);
    TextsRead(e);
    EscapeRoundTrip(e.name);
    EscapeRoundTrip(e.description);
    EscapeRoundTrip(e.location);
    hide EscapeIcsText, Unescape, Unfold, PhysicalLines, FoldAll, LineFeeds, ContentLines, ValueOf;
  }
}
