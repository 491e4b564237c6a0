/** The pasted card-list grammar, and the printer whose output it reads back. */
module CardList {
  import opened Wrappers
  import opened Strings

  const MAX_IMPORT_LINES: nat := 500
  const MAX_ITEM_QUANTITY: int := 999

  datatype ParsedLine = ParsedLine(lineNumber: int, raw: string, quantity: int, name: string,
                                   setCode: string, collectorNumber: string, ok: bool)

  datatype ImportError = TooManyLines

  // ---------------------------------------------------------------------
  // Characters
  // ---------------------------------------------------------------------

  /** unicode.IsSpace */
  predicate IsSpace(c: char) {
    || c == ' ' || '\t' <= c <= '\r' || c == '\U{85}' || c == '\U{A0}' || c == '\U{1680}'
    || '\U{2000}' <= c <= '\U{200A}' || c == '\U{2028}' || c == '\U{2029}' || c == '\U{202F}'
    || c == '\U{205F}' || c == '\U{3000}'
  }

  predicate IsDigit(c: char) {
    '0' <= c <= '9'
  }

  predicate IsAlnum(c: char) {
    IsDigit(c) || 'a' <= c <= 'z' || 'A' <= c <= 'Z'
  }

  predicate IsCollectorChar(c: char) {
    IsAlnum(c) || c == '\U{2605}' || c == '\U{2020}' || c == '-'
  }

  function LowerChar(c: char): char {
    if 'A' <= c <= 'Z' then (c as int + 32) as char else c
  }

  function UpperChar(c: char): char {
    if 'a' <= c <= 'z' then (c as int - 32) as char else c
  }

  function ToLower(s: string): (r: string)
    ensures |r| == |s| && forall i :: 0 <= i < |s| ==> r[i] == LowerChar(s[i])
  {
    seq(|s|, i requires 0 <= i < |s| => LowerChar(s[i]))
  }

  function ToUpper(s: string): (r: string)
    ensures |r| == |s| && forall i :: 0 <= i < |s| ==> r[i] == UpperChar(s[i])
  {
    seq(|s|, i requires 0 <= i < |s| => UpperChar(s[i]))
  }

  predicate All(p: char -> bool, s: string) {
    forall i :: 0 <= i < |s| ==> p(s[i])
  }

  // ---------------------------------------------------------------------
  // strings
  // ---------------------------------------------------------------------

  function TrimLeft(s: string): string {
    if s != [] && IsSpace(s[0]) then TrimLeft(s[1..]) else s
  }

  function TrimRight(s: string): string {
    if s != [] && IsSpace(s[|s| - 1]) then TrimRight(s[..|s| - 1]) else s
  }

  function TrimSpace(s: string): string {
    TrimRight(TrimLeft(s))
  }

  /** strings.Split on one character. */
  function Split(s: string, sep: char): (parts: seq<string>)
    ensures parts != []
  {
    if s == [] then [[]]
    else
      var rest := Split(s[1..], sep);
      if s[0] == sep then [[]] + rest else [[s[0]] + rest[0]] + rest[1..]
  }

  /** strings.Fields: the maximal runs of non-space characters. */
  function Fields(s: string): seq<string> {
    if s == [] then []
    else if IsSpace(s[0]) then Fields(s[1..])
    else
      var rest := Fields(s[1..]);
      if |s| > 1 && !IsSpace(s[1]) then [[s[0]] + First(rest)] + Tail(rest)
      else [[s[0]]] + rest
  }

  function First(parts: seq<string>): string {
    if parts == [] then [] else parts[0]
  }

  function Tail(parts: seq<string>): seq<string> {
    if parts == [] then [] else parts[1..]
  }

  /** The first space or tab. */
  function IndexBlank(s: string): (r: Option<nat>)
    ensures r.Some? ==> r.value < |s| && (s[r.value] == ' ' || s[r.value] == '\t')
    ensures r.Some? ==> forall i :: 0 <= i < r.value ==> s[i] != ' ' && s[i] != '\t'
    ensures r.None? ==> forall i :: 0 <= i < |s| ==> s[i] != ' ' && s[i] != '\t'
  {
    if s == [] then None
    else if s[0] == ' ' || s[0] == '\t' then Some(0)
    else
      var rest := IndexBlank(s[1..]);
      if rest.None? then None else Some(rest.value + 1)
  }

  function DigitsValue(s: string): int {
    if s == [] then 0 else 10 * DigitsValue(s[..|s| - 1]) + (s[|s| - 1] as int - '0' as int)
  }

  /** strconv.Atoi: an optional sign and digits, within 64 bits. */
  function Atoi(s: string): Option<int> {
    var signed := s != [] && (s[0] == '+' || s[0] == '-');
    var digits := if signed then s[1..] else s;
    if digits == [] || !All(IsDigit, digits) then None
    else
      var v := if signed && s[0] == '-' then -DigitsValue(digits) else DigitsValue(digits);
      if -0x8000_0000_0000_0000 <= v < 0x8000_0000_0000_0000 then Some(v) else None
  }

  /** A number in decimal, as a template literal prints it. */
  function Decimal(n: nat): string {
    if n < 10 then [('0' as int + n) as char] else Decimal(n / 10) + [('0' as int + n % 10) as char]
  }

  // ---------------------------------------------------------------------
  // The parser
  // ---------------------------------------------------------------------

  /** `^\(([A-Za-z0-9]{2,5})\)$` */
  predicate IsSetToken(s: string) {
    4 <= |s| <= 7 && s[0] == '(' && s[|s| - 1] == ')' && All(IsAlnum, s[1..|s| - 1])
  }

  /** `^[A-Za-z0-9★†-]+$` */
  predicate IsCollectorToken(s: string) {
    s != [] && All(IsCollectorChar, s)
  }

  /** Peel a trailing set code, and before that a collector number if a set code precedes it. */
  function SplitSelectors(name: string): (string, string, string) {
    var fields := Fields(name);
    var n := |fields|;
    if n < 2 then (name, "", "")
    else
      var last := fields[n - 1];
      var before := fields[n - 2];
      if IsCollectorToken(last) && IsSetToken(before) then
        (Join(fields[..n - 2], " "), ToLower(before[1..|before| - 1]), ToLower(last))
      else if IsSetToken(last) then
        (Join(fields[..n - 1], " "), ToLower(last[1..|last| - 1]), "")
      else (name, "", "")
  }

  predicate LooksLikeCardYear(qty: int) {
    1993 <= qty <= 2099
  }

  function FirstToken(line: string): string {
    var i := IndexBlank(line);
    if i.Some? then line[..i.value] else line
  }

  function RestOfLine(line: string): string {
    var i := IndexBlank(line);
    if i.Some? then TrimSpace(line[i.value + 1..]) else ""
  }

  function QuantityToken(first: string): string {
    if |first| > 1 && (first[|first| - 1] == 'x' || first[|first| - 1] == 'X') then first[..|first| - 1] else first
  }

  function ParseLine(n: int, line: string): ParsedLine {
    var unparsed := ParsedLine(n, line, 0, "", "", "", false);
    var rest := RestOfLine(line);
    var qty := Atoi(QuantityToken(FirstToken(line)));
    if qty.None? then WithSelectors(n, line, 1, line)
    else if qty.value > MAX_ITEM_QUANTITY && rest != "" && LooksLikeCardYear(qty.value) then
        WithSelectors(n, line, 1, line)
    else if qty.value < 1 || qty.value > MAX_ITEM_QUANTITY || rest == "" then unparsed
    else WithSelectors(n, line, qty.value, rest)
  }

  function WithSelectors(n: int, line: string, qty: int, nameText: string): ParsedLine {
    var (rest, setCode, collector) := SplitSelectors(nameText);
    if rest == "" then ParsedLine(n, line, 0, "", "", "", false)
    else ParsedLine(n, line, qty, rest, setCode, collector, true)
  }

  /** The non-blank lines, trimmed and parsed, with their positions in the text. */
  function ParseAll(lines: seq<string>): seq<ParsedLine> {
    if lines == [] then []
    else
      var n := |lines| - 1;
      var line := TrimSpace(lines[n]);
      ParseAll(lines[..n]) + if line == "" then [] else [ParseLine(n + 1, line)]
  }

  method ParseImportText(text: string) returns (r: Result<seq<ParsedLine>, ImportError>)
    ensures var all := ParseAll(Split(text, '\n'));
            r == if |all| > MAX_IMPORT_LINES then Err(TooManyLines) else Ok(all)
  {
    var lines := Split(text, '\n');
    var out: seq<ParsedLine> := [];
    hide ParseLine, TrimSpace, Split;
    TakeAll(lines);
    for i := 0 to |lines|
      invariant out == ParseAll(lines[..i]) && |out| <= MAX_IMPORT_LINES
    {
      TakeNext(lines, i);
      var line := TrimSpace(lines[i]);
      if line == "" {
        continue;
      }
      if |out| == MAX_IMPORT_LINES {
        ParseAllGrows(lines, i + 1);
        return Err(TooManyLines);
      }
      out := out + [ParseLine(i + 1, line)];
    }
    return Ok(out);
  }

  lemma {:induction false} ParseAllGrows(lines: seq<string>, n: nat)
    requires n <= |lines|
    ensures |ParseAll(lines[..n])| <= |ParseAll(lines)|
  {
    hide ParseLine, TrimSpace;
    if n < |lines| {
      var m := |lines| - 1;
      assert |ParseAll(lines[..m])| <= |ParseAll(lines)|;
      hide ParseAll;
      ParseAllGrows(lines[..m], n);
      assert lines[..m][..n] == lines[..n];
    } else {
      assert lines[..n] == lines;
    }
  }

  /** What any line that parses promises. */
  lemma ParsedLineSound(n: int, line: string)
    ensures var p := ParseLine(n, line);
            p.ok ==>
              && 1 <= p.quantity <= MAX_ITEM_QUANTITY && p.name != ""
              && (p.setCode == "" || 2 <= |p.setCode| <= 5)
              && (p.collectorNumber != "" ==> p.setCode != "")
  {
    hide SplitSelectors, Atoi, QuantityToken, FirstToken, RestOfLine;
    SelectorsSound(n, line, 1, line);
    var qty := Atoi(QuantityToken(FirstToken(line)));
    SelectorsSound(n, line, qty.GetOr(1), RestOfLine(line));
  }

  lemma SelectorsSound(n: int, line: string, qty: int, text: string)
    ensures var p := WithSelectors(n, line, qty, text);
            p.ok ==>
              && p.quantity == qty && p.name != ""
              && (p.setCode == "" || 2 <= |p.setCode| <= 5)
              && (p.collectorNumber != "" ==> p.setCode != "")
  {
    hide Fields, IsCollectorToken, All, Join;
  }

  // ---------------------------------------------------------------------
  // The printer
  // ---------------------------------------------------------------------

  datatype WantedItem = WantedItem(missingQuantity: nat, name: string, setCode: string, collectorNumber: string)

  function PrintItem(i: WantedItem): string {
    Decimal(i.missingQuantity) + " " + i.name + " (" + ToUpper(i.setCode) + ") " + i.collectorNumber
  }

  function PrintLines(items: seq<WantedItem>): (lines: seq<string>)
    ensures |lines| == |items|
  {
    seq(|items|, i requires 0 <= i < |items| => PrintItem(items[i]))
  }

  function WantlistToSetAnnotatedText(items: seq<WantedItem>): string {
    Join(PrintLines(items), "\n")
  }

  /** Words separated by single blanks: no blank at either end, no two in a row, no other white space. */
  ghost predicate SingleSpaced(name: string) {
    && name != "" && !IsSpace(name[0]) && !IsSpace(name[|name| - 1])
    && (forall i :: 0 <= i < |name| && IsSpace(name[i]) ==> name[i] == ' ')
    && (forall i :: 0 <= i < |name| - 1 && IsSpace(name[i]) ==> !IsSpace(name[i + 1]))
  }

  ghost predicate ItemOk(i: WantedItem) {
    && 1 <= i.missingQuantity <= MAX_ITEM_QUANTITY
    && SingleSpaced(i.name)
    && 2 <= |i.setCode| <= 5 && All(IsAlnum, i.setCode)
    && i.collectorNumber != "" && All(IsCollectorChar, i.collectorNumber)
  }

  // ---------------------------------------------------------------------
  // Fields
  // ---------------------------------------------------------------------

  /** The fields of a text with one more character in front. */
  function Prepended(c: char, s: string): seq<string> {
    var rest := Fields(s);
    if IsSpace(c) then rest
    else if s != [] && !IsSpace(s[0]) then [[c] + First(rest)] + Tail(rest)
    else [[c]] + rest
  }

  lemma FieldsStep(c: char, s: string)
    ensures Fields([c] + s) == Prepended(c, s)
  {
    assert ([c] + s)[1..] == s;
  }

  lemma PrependAcross(c: char, x: seq<string>, y: seq<string>)
    ensures x != [] ==> [[c] + First(x + y)] + Tail(x + y) == ([[c] + First(x)] + Tail(x)) + y
    ensures [[c]] + (x + y) == ([[c]] + x) + y
  {
    assert x != [] ==> (x + y)[1..] == x[1..] + y;
  }

  lemma {:induction false} FieldsAcrossBlank(a: string, b: string)
    ensures Fields(a + " " + b) == Fields(a) + Fields(b)
  {
    if a == [] {
      assert a + " " + b == [' '] + b;
      FieldsStep(' ', b);
      assert Fields(a) == [];
    } else {
      var c, rest := a[0], a[1..];
      var more := rest + " " + b;
      assert a == [c] + rest && a + " " + b == [c] + more;
      FieldsAcrossBlank(rest, b);
      FieldsStep(c, rest);
      FieldsStep(c, more);
      if rest != [] && !IsSpace(rest[0]) {
        FieldsStartsWord(rest);
      }
      hide Fields;
      assert more[0] == if rest == [] then ' ' else rest[0];
      PrependAcross(c, Fields(rest), Fields(b));
      hide First, Tail;
    }
  }

  lemma FieldsStartsWord(s: string)
    requires s != [] && !IsSpace(s[0])
    ensures Fields(s) != []
  {
  }

  ghost predicate IsWord(w: string) {
    w != [] && forall i :: 0 <= i < |w| ==> !IsSpace(w[i])
  }

  lemma {:induction false} FieldsOfWord(w: string)
    requires IsWord(w)
    ensures Fields(w) == [w]
  {
    if |w| > 1 {
      FieldsOfWord(w[1..]);
      assert [w[0]] + w[1..] == w;
    } else {
      assert w == [w[0]] && w[1..] == [];
    }
  }

  lemma {:induction false} FirstBlank(name: string) returns (k: nat)
    ensures k <= |name| && (forall i :: 0 <= i < k ==> !IsSpace(name[i])) && (k < |name| ==> IsSpace(name[k]))
  {
    k := 0;
    while k < |name| && !IsSpace(name[k])
      invariant k <= |name| && forall i :: 0 <= i < k ==> !IsSpace(name[i])
    {
      k := k + 1;
    }
  }

  /** Splitting a single-spaced name into words and joining them with blanks gives the name back. */
  lemma JoinPrepend(w: string, parts: seq<string>)
    requires parts != []
    ensures Join([w] + parts, " ") == w + " " + Join(parts, " ")
  {
    assert ([w] + parts)[1..] == parts;
  }

  /** A single-spaced text is its first word, a blank, and a single-spaced rest. */
  lemma FirstWord(name: string, k: nat)
    requires SingleSpaced(name) && k < |name| && IsSpace(name[k]) && forall i :: 0 <= i < k ==> !IsSpace(name[i])
    ensures k < |name| - 1 && name == name[..k] + " " + name[k + 1..]
    ensures IsWord(name[..k]) && SingleSpaced(name[k + 1..])
  {
    var rest := name[k + 1..];
    assert forall i :: 0 <= i < |rest| ==> rest[i] == name[k + 1 + i];
  }

  lemma {:induction false} JoinFields(name: string)
    requires SingleSpaced(name)
    ensures Fields(name) != [] && Join(Fields(name), " ") == name
    decreases |name|
  {
    var k := FirstBlank(name);
    if k == |name| {
      FieldsOfWord(name);
    } else {
      FirstWord(name, k);
      hide Fields, Join, SingleSpaced, IsWord;
      var w, rest := name[..k], name[k + 1..];
      FieldsAcrossBlank(w, rest);
      FieldsOfWord(w);
      JoinFields(rest);
      JoinPrepend(w, Fields(rest));
    }
  }

  // ---------------------------------------------------------------------
  // Numbers
  // ---------------------------------------------------------------------

  lemma {:induction false} DecimalReads(n: nat)
    ensures Decimal(n) != "" && All(IsDigit, Decimal(n)) && DigitsValue(Decimal(n)) == n
    decreases n
  {
    if n >= 10 {
      DecimalReads(n / 10);
      var c := ('0' as int + n % 10) as char;
      assert Decimal(n)[..|Decimal(n)| - 1] == Decimal(n / 10);
    }
  }

  lemma QuantityReads(n: nat)
    requires n <= MAX_ITEM_QUANTITY
    ensures Atoi(QuantityToken(Decimal(n))) == Some(n)
  {
    CountReads(n, "");
    assert Decimal(n) + "" == Decimal(n);
  }

  // ---------------------------------------------------------------------
  // Trimming and splitting
  // ---------------------------------------------------------------------

  lemma TrimNothing(s: string)
    requires s != [] && !IsSpace(s[0]) && !IsSpace(s[|s| - 1])
    ensures TrimSpace(s) == s
  {
  }

  lemma {:induction false} IndexBlankAfter(a: string, rest: string)
    requires forall i :: 0 <= i < |a| ==> a[i] != ' ' && a[i] != '\t'
    ensures IndexBlank(a + " " + rest) == Some(|a|)
  {
    if a == [] {
      assert a + " " + rest == " " + rest;
    } else {
      assert (a + " " + rest)[1..] == a[1..] + " " + rest;
      IndexBlankAfter(a[1..], rest);
    }
  }

  lemma {:induction false} SplitAfter(a: string, rest: string, sep: char)
    requires Lacks(a, sep)
    ensures Split(a + [sep] + rest, sep) == [a] + Split(rest, sep)
    ensures Split(a, sep) == [a]
  {
    if a == [] {
      assert a + [sep] + rest == [sep] + rest;
      assert ([sep] + rest)[1..] == rest;
    } else {
      assert (a + [sep] + rest)[1..] == a[1..] + [sep] + rest;
      SplitAfter(a[1..], rest, sep);
      assert [a[0]] + a[1..] == a;
    }
  }

  lemma {:induction false} SplitJoined(lines: seq<string>, sep: char)
    requires lines != [] && forall l :: l in lines ==> Lacks(l, sep)
    ensures Split(Join(lines, [sep]), sep) == lines
  {
    assert lines[0] in lines;
    if |lines| == 1 {
      SplitAfter(lines[0], [], sep);
    } else {
      assert forall l :: l in lines[1..] ==> l in lines;
      SplitJoined(lines[1..], sep);
      SplitAfter(lines[0], Join(lines[1..], [sep]), sep);
    }
  }

  // ---------------------------------------------------------------------
  // The round trip
  // ---------------------------------------------------------------------

  function SetToken(setCode: string): string {
    "(" + ToUpper(setCode) + ")"
  }

  lemma UpperThenLower(s: string)
    requires All(IsAlnum, s)
    ensures All(IsAlnum, ToUpper(s)) && ToLower(ToUpper(s)) == ToLower(s)
  {
  }

  lemma TokensAreWords(i: WantedItem)
    requires ItemOk(i)
    ensures IsWord(SetToken(i.setCode)) && IsSetToken(SetToken(i.setCode))
    ensures IsWord(i.collectorNumber) && IsCollectorToken(i.collectorNumber)
  {
    UpperThenLower(i.setCode);
    var t := SetToken(i.setCode);
    assert t[1..|t| - 1] == ToUpper(i.setCode);
    forall k | 0 <= k < |t| ensures !IsSpace(t[k]) {
      assert 0 < k < |t| - 1 ==> IsAlnum(ToUpper(i.setCode)[k - 1]);
    }
    forall k | 0 <= k < |i.collectorNumber| ensures !IsSpace(i.collectorNumber[k]) {
      assert IsCollectorChar(i.collectorNumber[k]);
    }
  }

  /** The last two words are the selectors, whatever the name looks like. */
  lemma SelectorsRead(i: WantedItem)
    requires ItemOk(i)
    ensures SplitSelectors(i.name + " " + SetToken(i.setCode) + " " + i.collectorNumber)
         == (i.name, ToLower(i.setCode), ToLower(i.collectorNumber))
  {
    var t, c := SetToken(i.setCode), i.collectorNumber;
    TokensAreWords(i);
    UpperThenLower(i.setCode);
    hide Fields;
    FieldsAcrossBlank(i.name + " " + t, c);
    FieldsAcrossBlank(i.name, t);
    FieldsOfWord(t);
    FieldsOfWord(c);
    JoinFields(i.name);
    assert t[1..|t| - 1] == ToUpper(i.setCode);
    hide SetToken, SingleSpaced, ItemOk, Join, ToUpper, ToLower, IsSetToken, IsCollectorToken, IsWord, All;
    assert Fields(i.name) + [t] + [c] == Fields(i.name) + [t, c];
    SplitByFields(i.name + " " + t + " " + c, Fields(i.name), t, c);
  }

  lemma SplitByFields(text: string, front: seq<string>, t: string, c: string)
    requires Fields(text) == front + [t, c] && IsSetToken(t) && IsCollectorToken(c)
    ensures SplitSelectors(text) == (Join(front, " "), ToLower(t[1..|t| - 1]), ToLower(c))
  {
    hide Fields, Join, ToLower, IsCollectorToken, All;
    assert (front + [t, c])[..|front|] == front;
  }

  function NameText(i: WantedItem): string {
    i.name + " " + SetToken(i.setCode) + " " + i.collectorNumber
  }

  lemma PrintItemIs(i: WantedItem)
    ensures PrintItem(i) == Decimal(i.missingQuantity) + " " + NameText(i)
  {
  }

  /** The printed line starts with a digit, ends with a collector character and stays on one line. */
  lemma PrintedLineShape(i: WantedItem)
    requires ItemOk(i)
    ensures var line := PrintItem(i);
            line != [] && !IsSpace(line[0]) && !IsSpace(line[|line| - 1]) && Lacks(line, '\n')
    ensures var text := NameText(i);
            text != [] && !IsSpace(text[0]) && !IsSpace(text[|text| - 1])
  {
    PrintItemIs(i);
    DecimalReads(i.missingQuantity);
    TokensAreWords(i);
    var d, text := Decimal(i.missingQuantity), NameText(i);
    assert IsDigit(d[0]);
    assert forall k :: 0 <= k < |d| ==> IsDigit(d[k]);
    forall k | 0 <= k < |i.name| ensures i.name[k] != '\n' {
      assert IsSpace(i.name[k]) ==> i.name[k] == ' ';
    }
    assert Lacks(d, '\n') && Lacks(i.name, '\n') && Lacks(SetToken(i.setCode), '\n') && Lacks(i.collectorNumber, '\n');
  }

  lemma PrintedParts(i: WantedItem)
    requires ItemOk(i)
    ensures FirstToken(PrintItem(i)) == Decimal(i.missingQuantity) && RestOfLine(PrintItem(i)) == NameText(i)
  {
    var d, text, line := Decimal(i.missingQuantity), NameText(i), PrintItem(i);
    PrintedLineShape(i);
    TrimNothing(text);
    PrintItemIs(i);
    DecimalReads(i.missingQuantity);
    assert forall k :: 0 <= k < |d| ==> IsDigit(d[k]);
    IndexBlankAfter(d, text);
    hide PrintItem, NameText, Decimal, TrimSpace, IndexBlank;
    assert line[..|d|] == d && line[|d| + 1..] == text;
  }

  lemma LineReads(i: WantedItem, n: int)
    requires ItemOk(i)
    ensures TrimSpace(PrintItem(i)) == PrintItem(i) != ""
    ensures ParseLine(n, PrintItem(i))
         == ParsedLine(n, PrintItem(i), i.missingQuantity, i.name, ToLower(i.setCode), ToLower(i.collectorNumber), true)
  {
    PrintedLineShape(i);
    TrimNothing(PrintItem(i));
    PrintedParts(i);
    QuantityReads(i.missingQuantity);
    SelectorsRead(i);
    assert NameText(i) == i.name + " " + SetToken(i.setCode) + " " + i.collectorNumber;
    hide PrintItem, NameText, Decimal, SplitSelectors, Atoi, QuantityToken, FirstToken, RestOfLine, ToLower, TrimSpace,
         SetToken;
  }

  lemma ParseAllNext(lines: seq<string>)
    requires lines != [] && TrimSpace(lines[|lines| - 1]) != ""
    ensures ParseAll(lines) == ParseAll(lines[..|lines| - 1]) + [ParseLine(|lines|, TrimSpace(lines[|lines| - 1]))]
  {
    hide ParseLine, TrimSpace;
  }

  /** Every item as the line the parser makes of it. */
  function ReadBack(items: seq<WantedItem>): (lines: seq<ParsedLine>)
    ensures |lines| == |items|
    ensures forall k :: 0 <= k < |items| ==> lines[k] == ReadItem(items[k], k + 1)
  {
    seq(|items|, k requires 0 <= k < |items| => ReadItem(items[k], k + 1))
  }

  function ReadItem(i: WantedItem, n: int): ParsedLine {
    ParsedLine(n, PrintItem(i), i.missingQuantity, i.name, ToLower(i.setCode), ToLower(i.collectorNumber), true)
  }

  lemma OneItemMore(items: seq<WantedItem>)
    requires items != []
    ensures var n := |items| - 1;
            && PrintLines(items)[..n] == PrintLines(items[..n]) && PrintLines(items)[n] == PrintItem(items[n])
            && ReadBack(items) == ReadBack(items[..n]) + [ReadItem(items[n], n + 1)]
  {
    hide PrintItem, ReadItem;
  }

  lemma {:induction false} LinesRead(items: seq<WantedItem>)
    requires forall i :: i in items ==> ItemOk(i)
    ensures ParseAll(PrintLines(items)) == ReadBack(items)
  {
    if items != [] {
      var n := |items| - 1;
      assert items[n] in items;
      assert forall i :: i in items[..n] ==> i in items;
      OneItemMore(items);
      LineReads(items[n], n + 1);
      assert ReadItem(items[n], n + 1) == ParseLine(n + 1, PrintItem(items[n]));
      hide *;
      LinesRead(items[..n]);
      ParseAllNext(PrintLines(items));
    }
  }

  /**
   Reading back what the printer printed gives every item again: quantity and
   name as they were, selectors in lower case, whatever parentheses or digits
   the names contain.
   */
  lemma RoundTrip(items: seq<WantedItem>)
    requires |items| <= MAX_IMPORT_LINES && forall i :: i in items ==> ItemOk(i)
    ensures var parsed := ParseAll(Split(WantlistToSetAnnotatedText(items), '\n'));
            && |parsed| == |items| <= MAX_IMPORT_LINES
            && forall k :: 0 <= k < |items| ==>
                 && parsed[k].ok && parsed[k].lineNumber == k + 1
                 && parsed[k].quantity == items[k].missingQuantity && parsed[k].name == items[k].name
                 && parsed[k].setCode == ToLower(items[k].setCode)
                 && parsed[k].collectorNumber == ToLower(items[k].collectorNumber)
  {
    if items == [] {
      assert Split([], '\n') == [[]];
      assert TrimSpace([]) == [];
    } else {
      LinesLackNewlines(items);
      LinesRead(items);
      hide ItemOk, PrintItem, ToLower, Lacks, Join, Split, ParseAll, PrintLines, ReadBack;
      SplitJoined(PrintLines(items), '\n');
      assert WantlistToSetAnnotatedText(items) == Join(PrintLines(items), ['\n']);
    }
  }

  lemma LinesLackNewlines(items: seq<WantedItem>)
    requires forall i :: i in items ==> ItemOk(i)
    ensures forall l :: l in PrintLines(items) ==> Lacks(l, '\n')
  {
    var lines := PrintLines(items);
    forall l | l in lines ensures Lacks(l, '\n') {
      var k :| 0 <= k < |lines| && lines[k] == l;
      assert items[k] in items;
      PrintedLineShape(items[k]);
    }
  }

  // ---------------------------------------------------------------------
  // Lines typed by hand
  // ---------------------------------------------------------------------

  /** One past the largest number that is still read as one. */
  const NUMBERS_END: int := 0x8000_0000_0000_0000

  lemma CountReads(k: nat, suffix: string)
    requires suffix == "" || suffix == "x" || suffix == "X"
    ensures Atoi(QuantityToken(Decimal(k) + suffix)) == if k < NUMBERS_END then Some(k) else None
    ensures forall i :: 0 <= i < |Decimal(k) + suffix| ==> !IsSpace((Decimal(k) + suffix)[i])
  {
    DecimalReads(k);
    hide Decimal, DigitsValue;
    SuffixDropped(Decimal(k), suffix);
    DigitsRead(Decimal(k));
    hide Atoi, QuantityToken, All;
  }

  lemma SuffixDropped(d: string, suffix: string)
    requires d != "" && All(IsDigit, d) && (suffix == "" || suffix == "x" || suffix == "X")
    ensures QuantityToken(d + suffix) == d
    ensures forall i :: 0 <= i < |d + suffix| ==> !IsSpace((d + suffix)[i])
  {
    assert IsDigit(d[|d| - 1]);
    assert (d + suffix)[..|d|] == d;
    forall i | 0 <= i < |d + suffix| ensures !IsSpace((d + suffix)[i]) {
      assert i < |d| ==> IsDigit(d[i]);
    }
  }

  lemma DigitsRead(d: string)
    requires d != "" && All(IsDigit, d) && DigitsValue(d) >= 0
    ensures Atoi(d) == if DigitsValue(d) < NUMBERS_END then Some(DigitsValue(d)) else None
  {
    assert IsDigit(d[0]);
    hide DigitsValue;
  }

  /**
   A count in front, with or without an x: from 1 to 999 it is the quantity and
   the rest is the name; a number shaped like a year, or too large to be one,
   belongs to the name; any other count makes the line unreadable.
   */
  lemma CountedLine(n: int, k: nat, suffix: string, text: string)
    requires suffix == "" || suffix == "x" || suffix == "X"
    requires text != "" && !IsSpace(text[0]) && !IsSpace(text[|text| - 1])
    ensures var line := Decimal(k) + suffix + " " + text;
            var p := ParseLine(n, line);
            if 1 <= k <= 999 then p == WithSelectors(n, line, k, text)
            else if 1993 <= k <= 2099 || k >= NUMBERS_END then p == WithSelectors(n, line, 1, line)
            else !p.ok
  {
    var d := Decimal(k) + suffix;
    var line := d + " " + text;
    CountReads(k, suffix);
    IndexBlankAfter(d, text);
    TrimNothing(text);
    assert line[..|d|] == d && line[|d| + 1..] == text;
    hide Atoi, QuantityToken, Decimal, WithSelectors, TrimSpace, IndexBlank;
  }

  /** A line that does not start with a digit or a sign is a name, once. */
  lemma BareName(n: int, line: string)
    requires line != "" && !IsSpace(line[0]) && !IsDigit(line[0]) && line[0] != '+' && line[0] != '-'
    ensures ParseLine(n, line) == WithSelectors(n, line, 1, line)
  {
    var first := QuantityToken(FirstToken(line));
    assert first != "" && first[0] == line[0];
    assert Atoi(first).None?;
    hide WithSelectors, Atoi, QuantityToken, FirstToken, RestOfLine;
  }

  /** A trailing set code without a number is read; a text that ends in neither is a name as it stands. */
  lemma SetOnly(n: int, line: string, qty: int, name: string, setCode: string)
    requires SingleSpaced(name) && 2 <= |setCode| <= 5 && All(IsAlnum, setCode)
    ensures WithSelectors(n, line, qty, name + " (" + ToUpper(setCode) + ")")
         == ParsedLine(n, line, qty, name, ToLower(setCode), "", true)
  {
    var t := SetToken(setCode);
    var text := name + " " + t;
    assert name + " (" + ToUpper(setCode) + ")" == text;
    SetTokenIsWord(setCode);
    FieldsAcrossBlank(name, t);
    FieldsOfWord(t);
    JoinFields(name);
    assert (Fields(name) + [t])[..|Fields(name)|] == Fields(name);
    hide Fields, SetToken, ToLower, ToUpper, Join, All, SingleSpaced;
  }

  lemma SetTokenIsWord(setCode: string)
    requires 2 <= |setCode| <= 5 && All(IsAlnum, setCode)
    ensures var t := SetToken(setCode);
            && IsWord(t) && IsSetToken(t) && !IsCollectorToken(t) && ToLower(t[1..|t| - 1]) == ToLower(setCode)
  {
    TokensAreWords(WantedItem(1, "a", setCode, "1"));
    UpperThenLower(setCode);
    var t := SetToken(setCode);
    assert t[1..|t| - 1] == ToUpper(setCode) && t[0] == '(';
    assert !IsCollectorChar(t[0]);
  }

  /** The text ends in a set code, or in a set code and a number. */
  ghost predicate EndsInSelectors(text: string) {
    var fields := Fields(text);
    var n := |fields|;
    n >= 2 && (IsSetToken(fields[n - 1]) || (IsSetToken(fields[n - 2]) && IsCollectorToken(fields[n - 1])))
  }

  lemma NoSelectors(n: int, line: string, qty: int, text: string)
    requires text != "" && !EndsInSelectors(text)
    ensures WithSelectors(n, line, qty, text) == ParsedLine(n, line, qty, text, "", "", true)
  {
    hide Fields, IsSetToken, IsCollectorToken;
  }

  // ---------------------------------------------------------------------
  // Which lines are read
  // ---------------------------------------------------------------------

  /** Line `k` of a text, trimmed. */
  function LineAt(lines: seq<string>, k: nat): string
    requires k < |lines|
  {
    TrimSpace(lines[k])
  }

  /** The parsed line is that line of the text, which is not blank. */
  ghost predicate IsLine(lines: seq<string>, p: ParsedLine) {
    && 1 <= p.lineNumber <= |lines| && LineAt(lines, p.lineNumber - 1) != ""
    && p == ParseLine(p.lineNumber, LineAt(lines, p.lineNumber - 1))
  }

  ghost predicate InOrder(lines: seq<string>, all: seq<ParsedLine>) {
    && (forall i :: 0 <= i < |all| ==> IsLine(lines, all[i]))
    && (forall i, j :: 0 <= i < j < |all| ==> all[i].lineNumber < all[j].lineNumber)
  }

  lemma {:induction false} OnlyLines(lines: seq<string>)
    ensures InOrder(lines, ParseAll(lines))
  {
    hide ParseLine, TrimSpace;
    if lines != [] {
      var n := |lines| - 1;
      var front := lines[..n];
      var before := ParseAll(front);
      OnlyLines(front);
      LineKept(n + 1, TrimSpace(lines[n]));
      forall i | 0 <= i < |before| ensures IsLine(lines, before[i]) {
        assert IsLine(front, before[i]);
      }
    }
  }

  lemma LineKept(n: int, line: string)
    ensures ParseLine(n, line).lineNumber == n && ParseLine(n, line).raw == line
  {
    hide SplitSelectors, Atoi, QuantityToken, FirstToken, RestOfLine;
  }

  lemma {:induction false} AllLines(lines: seq<string>, k: nat)
    requires k < |lines| && LineAt(lines, k) != ""
    ensures ParseLine(k + 1, LineAt(lines, k)) in ParseAll(lines)
  {
    hide ParseLine, TrimSpace;
    var n := |lines| - 1;
    if k < n {
      AllLines(lines[..n], k);
    }
  }

  /** Every line but the blank ones is read, once, in order, under its position in the text, blank lines counted. */
  lemma EveryLineOnce(lines: seq<string>)
    ensures var all := ParseAll(lines);
            && (forall p :: p in all <==> IsLine(lines, p))
            && (forall i, j :: 0 <= i < j < |all| ==> all[i].lineNumber < all[j].lineNumber)
  {
    OnlyLines(lines);
    hide ParseLine, LineAt, ParseAll;
    forall p | IsLine(lines, p) ensures p in ParseAll(lines) {
      AllLines(lines, p.lineNumber - 1);
    }
  }
}
