/** The whole file: what the generator writes and what the parser makes of it. */
module ConfFiles {
  import opened Wrappers
  import opened Conf

  /** One value to write: its group, its key, where it came from. */
  datatype Entry = Entry(section: string, key: string, value: string, origin: string)

  /** The comment lines at the top; what they say is left out. */
  const TOP_LINE := "; written by wbf-cli"
  const TOP: seq<string> := [TOP_LINE, TOP_LINE, TOP_LINE, TOP_LINE]

  // ---- the parser ----

  function ChopReturn(line: string): string { if line != "" && line[|line| - 1] == '\r' then line[..|line| - 1] else line }

  function LinesOf(text: string): seq<string> {
    if text == "" then []
    else
      var at := IndexOf(text, '\n');
      if at == |text| then [text] else [ChopReturn(text[..at])] + LinesOf(text[at + 1..])
  }

  /** Every line in turn; a later value of a key wins; None is a line that makes no sense. */
  function ParseLines(values: map<string, string>, lines: seq<string>): Option<map<string, string>>
    decreases |lines|
  {
    if lines == [] then Some(values)
    else
      match Meaning(lines[0])
      case BadLine => None
      case Setting(key, value) => ParseLines(values[key := value], lines[1..])
      case _ => ParseLines(values, lines[1..])
  }

  function ParseText(text: string): Option<map<string, string>> { ParseLines(map[], LinesOf(text)) }

  method SplitLines(text: string) returns (lines: seq<string>)
    ensures lines == LinesOf(text)
  {
    lines := [];
    var rest := text;
    while rest != ""
      invariant lines + LinesOf(rest) == LinesOf(text)
      decreases |rest|
    {
      var at := IndexOf(rest, '\n');
      if at == |rest| {
        lines := lines + [rest];
        return;
      }
      assert lines + ([ChopReturn(rest[..at])] + LinesOf(rest[at + 1..])) == (lines + [ChopReturn(rest[..at])]) + LinesOf(rest[at + 1..]);
      lines := lines + [ChopReturn(rest[..at])];
      rest := rest[at + 1..];
    }
    assert lines + [] == lines;
  }

  method Parse(text: string) returns (conf: Result<map<string, string>, Error>)
    ensures conf.Ok? <==> ParseText(text).Some?
    ensures conf.Ok? ==> conf.value == ParseText(text).value
    ensures conf.Err? ==> conf.error == Usage
  {
    var lines := SplitLines(text);
    var values: map<string, string> := map[];
    var i := 0;
    while i < |lines|
      invariant 0 <= i <= |lines| && ParseLines(values, lines[i..]) == ParseText(text)
    {
      assert lines[i..][1..] == lines[i + 1..];
      match Meaning(lines[i]) {
        case BadLine => return Err(Usage);
        case Setting(key, value) => values := values[key := value];
        case _ =>
      }
      i := i + 1;
    }
    conf := Ok(values);
  }

  // ---- the generator ----

  /** The groups in the order they first appear. */
  function SectionsOf(entries: seq<Entry>): seq<string> {
    if entries == [] then []
    else
      var before := SectionsOf(entries[..|entries| - 1]);
      var section := entries[|entries| - 1].section;
      if section in before then before else before + [section]
  }

  function InSection(entries: seq<Entry>, section: string): seq<Entry> {
    if entries == [] then []
    else (if entries[0].section == section then [entries[0]] else []) + InSection(entries[1..], section)
  }

  function LineOf(e: Entry): string { Printed(e.key, e.value, e.origin) }

  function EntryLines(entries: seq<Entry>): seq<string> {
    if entries == [] then [] else [LineOf(entries[0])] + EntryLines(entries[1..])
  }

  function SectionLines(entries: seq<Entry>, section: string): seq<string> {
    ["", "[" + section + "]"] + EntryLines(InSection(entries, section))
  }

  function BodyLines(entries: seq<Entry>, sections: seq<string>): seq<string> {
    if sections == [] then [] else SectionLines(entries, sections[0]) + BodyLines(entries, sections[1..])
  }

  function FileLines(entries: seq<Entry>): seq<string> { TOP + BodyLines(entries, SectionsOf(entries)) }

  function Joined(lines: seq<string>): string { if lines == [] then "" else lines[0] + "\n" + Joined(lines[1..]) }

  lemma {:induction false} JoinedAppend(a: seq<string>, b: seq<string>)
    ensures Joined(a + b) == Joined(a) + Joined(b)
  {
    if a == [] {
      assert a + b == b;
    } else {
      assert (a + b)[0] == a[0] && (a + b)[1..] == a[1..] + b;
      JoinedAppend(a[1..], b);
    }
  }

  method ListSections(entries: seq<Entry>) returns (sections: seq<string>)
    ensures sections == SectionsOf(entries)
  {
    sections := [];
    var i := 0;
    while i < |entries|
      invariant 0 <= i <= |entries| && sections == SectionsOf(entries[..i])
    {
      assert entries[..i + 1][..i] == entries[..i];
      if entries[i].section !in sections { sections := sections + [entries[i].section]; }
      i := i + 1;
    }
    assert entries[..i] == entries;
  }

  method WriteSection(entries: seq<Entry>, section: string) returns (text: string)
    ensures text == Joined(SectionLines(entries, section))
  {
    var lines := WriteEntries(entries, section);
    ghost var top := ["", "[" + section + "]"];
    JoinedAppend(top, EntryLines(InSection(entries, section)));
    assert top[1..] == ["[" + section + "]"] && top[1..][1..] == [];
    assert Joined(top) == "" + "\n" + ("[" + section + "]" + "\n" + "");
    text := "\n[" + section + "]\n" + lines;
  }

  method WriteEntries(entries: seq<Entry>, section: string) returns (text: string)
    ensures text == Joined(EntryLines(InSection(entries, section)))
  {
    text := "";
    var rest := entries;
    while rest != []
      invariant text + Joined(EntryLines(InSection(rest, section))) == Joined(EntryLines(InSection(entries, section)))
      decreases |rest|
    {
      EntriesStep(rest, section);
      if rest[0].section == section {
        ghost var tail := Joined(EntryLines(InSection(rest[1..], section)));
        Assoc(text, LineOf(rest[0]) + "\n", tail);
        Assoc(text, LineOf(rest[0]), "\n");
        text := text + LineOf(rest[0]) + "\n";
      }
      rest := rest[1..];
    }
    assert text + "" == text;
  }

  lemma Assoc(a: string, b: string, c: string)
    ensures a + (b + c) == (a + b) + c
  {
  }

  lemma EntriesStep(entries: seq<Entry>, section: string)
    requires entries != []
    ensures var tail := Joined(EntryLines(InSection(entries[1..], section)));
            Joined(EntryLines(InSection(entries, section)))
            == if entries[0].section == section then LineOf(entries[0]) + "\n" + tail else tail
  {
    var more := InSection(entries[1..], section);
    if entries[0].section == section {
      assert ([entries[0]] + more)[1..] == more;
      assert ([LineOf(entries[0])] + EntryLines(more))[1..] == EntryLines(more);
    } else {
      assert [] + more == more;
    }
  }

  method WriteSections(entries: seq<Entry>, sections: seq<string>) returns (text: string)
    ensures text == Joined(BodyLines(entries, sections))
  {
    text := "";
    var rest := sections;
    while rest != []
      invariant text + Joined(BodyLines(entries, rest)) == Joined(BodyLines(entries, sections))
      decreases |rest|
    {
      var section := WriteSection(entries, rest[0]);
      ghost var tail := BodyLines(entries, rest[1..]);
      JoinedAppend(SectionLines(entries, rest[0]), tail);
      assert text + (section + Joined(tail)) == (text + section) + Joined(tail);
      text := text + section;
      rest := rest[1..];
    }
    assert text + "" == text;
  }

  /** The text of the file: the comment lines, then group after group. */
  method WriteText(entries: seq<Entry>) returns (text: string)
    ensures text == Joined(FileLines(entries))
  {
    var sections := ListSections(entries);
    var body := WriteSections(entries, sections);
    JoinedAppend(TOP, BodyLines(entries, sections));
    text := Joined(TOP) + body;
  }

  /** The file of one data directory. */
  class ConfFile {
    var content: Option<string>

    constructor (content: Option<string>)
      ensures this.content == content
    {
      this.content := content;
    }

    /** A file that is there is never touched. */
    method WriteIfAbsent(entries: seq<Entry>) returns (written: bool)
      modifies this
      ensures written <==> old(content).None?
      ensures content == if written then Some(Joined(FileLines(entries))) else old(content)
    {
      written := content.None?;
      if written {
        var text := WriteText(entries);
        content := Some(text);
      }
    }
  }

  // ---- the file read back ----

  /** A line that stays one line. */
  predicate IsOneLine(line: string) { '\n' !in line && (line != "" ==> line[|line| - 1] != '\r') }

  lemma {:induction false} LinesOfJoined(lines: seq<string>)
    requires forall i :: 0 <= i < |lines| ==> IsOneLine(lines[i])
    ensures LinesOf(Joined(lines)) == lines
  {
    if lines != [] {
      var rest := Joined(lines[1..]);
      LinesOfJoined(lines[1..]);
      IndexOfFirst(lines[0], '\n', rest);
      assert lines[0] + ['\n'] + rest == Joined(lines);
      assert Joined(lines)[..|lines[0]|] == lines[0] && Joined(lines)[|lines[0]| + 1..] == rest;
    }
  }

  lemma {:induction false} ParseAppend(values: map<string, string>, a: seq<string>, b: seq<string>)
    ensures ParseLines(values, a + b)
         == if ParseLines(values, a).None? then None else ParseLines(ParseLines(values, a).value, b)
    decreases |a|
  {
    if a == [] {
      assert a + b == b;
    } else {
      assert (a + b)[0] == a[0] && (a + b)[1..] == a[1..] + b;
      match Meaning(a[0])
      case Setting(key, value) => ParseAppend(values[key := value], a[1..], b);
      case Nothing => ParseAppend(values, a[1..], b);
      case Header => ParseAppend(values, a[1..], b);
      case BadLine =>
    }
  }

  /** What an entry is written with: a known key, a value that is there and stays on its line, a plain group and origin. */
  predicate IsEntry(e: Entry) {
    && IsKey(e.key) && e.value != "" && '\n' !in e.value
    && '"' !in e.origin && '\n' !in e.origin && '\r' !in e.origin
    && e.section != "" && forall i :: 0 <= i < |e.section| ==> 'a' <= e.section[i] <= 'z' || e.section[i] == '_'
  }

  predicate AreEntries(entries: seq<Entry>) {
    && (forall i :: 0 <= i < |entries| ==> IsEntry(entries[i]))
    && (forall i, j :: 0 <= i < j < |entries| ==> entries[i].key != entries[j].key)
  }

  /** What the parser makes of the entry's line. */
  function ReadBack(e: Entry): Option<string> {
    match Meaning(LineOf(e))
    case Setting(_, value) => Some(value)
    case _ => None
  }

  lemma {:induction false} LineReadsKey(e: Entry)
    requires IsEntry(e)
    ensures Meaning(LineOf(e)) == if ReadBack(e).Some? then Setting(e.key, ReadBack(e).value) else Nothing
    ensures ReadBack(e) == Some(e.value) <==> ComesBack(e.value)
  {
    LineComesBackIff(e.key, e.value, e.origin);
    PrintedScans(e.key, e.value, e.origin);
    var q := QuoteIfNeeded(e.value);
    var cut := CutAt(q, false, false);
    var rest := if cut < |q| then q[..cut] else if Odd(Quotes(q)) then q + TAIL + e.origin else q + "   ";
    KeptMeaning(LineOf(e), e.key, rest);
  }

  function WithEntry(values: map<string, string>, e: Entry): map<string, string> {
    match ReadBack(e)
    case None => values
    case Some(value) => values[e.key := value]
  }

  function WithEntries(values: map<string, string>, entries: seq<Entry>): map<string, string>
    decreases |entries|
  {
    if entries == [] then values else WithEntries(WithEntry(values, entries[0]), entries[1..])
  }

  lemma {:induction false} EntryLinesRead(values: map<string, string>, entries: seq<Entry>)
    requires forall i :: 0 <= i < |entries| ==> IsEntry(entries[i])
    ensures ParseLines(values, EntryLines(entries)) == Some(WithEntries(values, entries))
    decreases |entries|
  {
    if entries != [] {
      LineReadsKey(entries[0]);
      assert ([LineOf(entries[0])] + EntryLines(entries[1..]))[1..] == EntryLines(entries[1..]);
      EntryLinesRead(WithEntry(values, entries[0]), entries[1..]);
    }
  }

  function Of(values: map<string, string>, key: string): Option<string> { if key in values then Some(values[key]) else None }

  /** One group adds what its entries read back as. */
  lemma {:induction false} SectionReads(values: map<string, string>, entries: seq<Entry>, section: string)
    requires AreEntries(entries) && IsSectionName(section)
    ensures ParseLines(values, SectionLines(entries, section)) == Some(WithEntries(values, InSection(entries, section)))
  {
    var header := "[" + section + "]";
    var body := EntryLines(InSection(entries, section));
    HeaderIsHeader(section);
    InSectionIs(entries, section);
    EntryLinesRead(values, InSection(entries, section));
    var lines := SectionLines(entries, section);
    assert lines[0] == "" && lines[1..] == [header] + body && lines[1..][0] == header && lines[1..][1..] == body;
    assert Meaning("") == Nothing;
  }

  predicate IsSectionName(section: string) {
    section != "" && forall i :: 0 <= i < |section| ==> 'a' <= section[i] <= 'z' || section[i] == '_'
  }

  lemma {:induction false} HeaderIsHeader(section: string)
    requires IsSectionName(section)
    ensures Meaning("[" + section + "]") == Header
  {
    var line := "[" + section + "]";
    assert forall i :: 0 <= i < |line| ==> !IsSign(line[i]) && line[i] != '"';
    NoCutIff(line, false, true);
    assert line[..|line|] == line;
    assert !IsSpace(line[0]) && !IsSpace(line[|line| - 1]);
    TrimIsInside(line);
  }

  lemma {:induction false} InSectionIs(entries: seq<Entry>, section: string)
    ensures forall e :: e in InSection(entries, section) <==> e in entries && e.section == section
  {
    if entries != [] {
      InSectionIs(entries[1..], section);
      assert entries == [entries[0]] + entries[1..];
    }
  }

  function WithSections(values: map<string, string>, entries: seq<Entry>, sections: seq<string>): map<string, string>
    decreases |sections|
  {
    if sections == [] then values else WithSections(WithEntries(values, InSection(entries, sections[0])), entries, sections[1..])
  }

  lemma {:induction false} BodyReads(values: map<string, string>, entries: seq<Entry>, sections: seq<string>)
    requires AreEntries(entries) && forall i :: 0 <= i < |sections| ==> IsSectionName(sections[i])
    ensures ParseLines(values, BodyLines(entries, sections)) == Some(WithSections(values, entries, sections))
    decreases |sections|
  {
    if sections != [] {
      SectionReads(values, entries, sections[0]);
      ParseAppend(values, SectionLines(entries, sections[0]), BodyLines(entries, sections[1..]));
      BodyReads(WithEntries(values, InSection(entries, sections[0])), entries, sections[1..]);
    }
  }

  lemma DistinctKeys(all: seq<Entry>, a: Entry, b: Entry)
    requires AreEntries(all) && a in all && b in all && a != b
    ensures a.key != b.key
  {
    var i :| 0 <= i < |all| && all[i] == a;
    var j :| 0 <= j < |all| && all[j] == b;
    assert i < j || j < i;
  }

  /** What one more entry does to a key. */
  lemma WithEntryAt(values: map<string, string>, first: Entry, key: string)
    ensures Of(WithEntry(values, first), key)
         == if first.key == key && ReadBack(first).Some? then ReadBack(first) else Of(values, key)
  {
  }

  lemma {:induction false} WithEntriesAt(values: map<string, string>, some: seq<Entry>, all: seq<Entry>, e: Entry)
    requires AreEntries(all) && e in all && forall other :: other in some ==> other in all
    ensures Of(WithEntries(values, some), e.key) == if e in some && ReadBack(e).Some? then ReadBack(e) else Of(values, e.key)
    decreases |some|
  {
    if some != [] {
      var first := some[0];
      assert some == [first] + some[1..];
      WithEntriesAt(WithEntry(values, first), some[1..], all, e);
      WithEntryAt(values, first, e.key);
      if first != e { DistinctKeys(all, first, e); }
    }
  }

  lemma {:induction false} WithSectionsAt(values: map<string, string>, entries: seq<Entry>, sections: seq<string>, e: Entry)
    requires AreEntries(entries) && e in entries
    ensures Of(WithSections(values, entries, sections), e.key)
         == if e.section in sections && ReadBack(e).Some? then ReadBack(e) else Of(values, e.key)
    decreases |sections|
  {
    if sections != [] {
      var some := InSection(entries, sections[0]);
      InSectionIs(entries, sections[0]);
      assert e in some <==> e.section == sections[0];
      WithEntriesAt(values, some, entries, e);
      var next := WithEntries(values, some);
      WithSectionsAt(next, entries, sections[1..], e);
      assert WithSections(values, entries, sections) == WithSections(next, entries, sections[1..]);
      assert e.section in sections <==> e.section == sections[0] || e.section in sections[1..];
    }
  }

  lemma {:induction false} SectionsCover(entries: seq<Entry>)
    ensures forall e :: e in entries ==> e.section in SectionsOf(entries)
    ensures forall s :: s in SectionsOf(entries) ==> exists e :: e in entries && e.section == s
  {
    if entries != [] {
      var last := |entries| - 1;
      SectionsCover(entries[..last]);
      assert entries == entries[..last] + [entries[last]];
      assert entries[last] in entries;
    }
  }

  lemma {:induction false} EntryLinesStay(entries: seq<Entry>)
    requires forall i :: 0 <= i < |entries| ==> IsEntry(entries[i])
    ensures forall i :: 0 <= i < |EntryLines(entries)| ==> IsOneLine(EntryLines(entries)[i])
  {
    if entries != [] {
      EntryLinesStay(entries[1..]);
      PrintedStays(entries[0]);
    }
  }

  lemma {:induction false} PrintedStays(e: Entry)
    requires IsEntry(e)
    ensures IsOneLine(LineOf(e))
  {
    var line := LineOf(e);
    var q := QuoteIfNeeded(e.value);
    assert line == e.key + "=" + q + TAIL + e.origin;
    assert '\n' !in e.key && '\n' !in q && '\n' !in TAIL;
    assert line[|line| - 1] == if e.origin == "" then ' ' else e.origin[|e.origin| - 1];
  }

  lemma {:induction false} BodyStays(entries: seq<Entry>, sections: seq<string>)
    requires AreEntries(entries) && forall i :: 0 <= i < |sections| ==> IsSectionName(sections[i])
    ensures forall line :: line in BodyLines(entries, sections) ==> IsOneLine(line)
  {
    if sections != [] {
      BodyStays(entries, sections[1..]);
      InSectionIs(entries, sections[0]);
      EntryLinesStay(InSection(entries, sections[0]));
      var header := "[" + sections[0] + "]";
      assert '\n' !in header && header[|header| - 1] == ']';
    }
  }

  lemma {:induction false} TopReads(values: map<string, string>)
    ensures ParseLines(values, TOP) == Some(values)
    ensures forall i :: 0 <= i < |TOP| ==> IsOneLine(TOP[i])
  {
    CommentIsNothing(TOP_LINE);
    TopLineStays();
    assert forall i :: 0 <= i < |TOP| ==> TOP[i] == TOP_LINE;
    CommentsRead(values, TOP);
  }

  lemma TopLineStays()
    ensures IsOneLine(TOP_LINE)
  {
    var line := TOP_LINE;
    assert |line| == 20 && line[19] == 'i';
  }

  lemma CommentIsNothing(line: string)
    requires line != "" && line[0] == ';'
    ensures Meaning(line) == Nothing
  {
    assert StripComment(line) == "";
  }

  lemma {:induction false} CommentsRead(values: map<string, string>, lines: seq<string>)
    requires forall i :: 0 <= i < |lines| ==> Meaning(lines[i]) == Nothing
    ensures ParseLines(values, lines) == Some(values)
    decreases |lines|
  {
    if lines != [] { CommentsRead(values, lines[1..]); }
  }

  /** The file the generator writes always parses. An entry's value comes back if and only if its quotes pair up and no
      comment sign after a space stands outside them, whatever the other entries are. */
  lemma {:induction false} FileComesBackIff(entries: seq<Entry>, e: Entry)
    requires AreEntries(entries) && e in entries
    ensures var read := ParseText(Joined(FileLines(entries)));
            read.Some? && (Of(read.value, e.key) == Some(e.value) <==> ComesBack(e.value))
  {
    var sections := SectionsOf(entries);
    SectionsCover(entries);
    assert forall i :: 0 <= i < |sections| ==> sections[i] in sections;
    assert forall i :: 0 <= i < |sections| ==> IsSectionName(sections[i]);
    BodyStays(entries, sections);
    TopReads(map[]);
    var lines := FileLines(entries);
    forall i | 0 <= i < |lines| ensures IsOneLine(lines[i]) {
      if i >= |TOP| { assert lines[i] == BodyLines(entries, sections)[i - |TOP|]; }
    }
    LinesOfJoined(lines);
    ParseAppend(map[], TOP, BodyLines(entries, sections));
    BodyReads(map[], entries, sections);
    WithSectionsAt(map[], entries, sections, e);
    LineReadsKey(e);
  }

  // ---- what the parser says of any text ----

  /** The value the last line that sets the key gives it, looked for from the end. */
  function LastSet(lines: seq<string>, key: string): Option<string> {
    if lines == [] then None
    else
      var last := Meaning(lines[|lines| - 1]);
      if last.Setting? && last.key == key then Some(last.value) else LastSet(lines[..|lines| - 1], key)
  }

  predicate IsSenseless(lines: seq<string>) { exists i :: 0 <= i < |lines| && Meaning(lines[i]).BadLine? }

  lemma {:induction false} LinesSay(values: map<string, string>, lines: seq<string>, key: string)
    ensures ParseLines(values, lines).None? <==> IsSenseless(lines)
    ensures ParseLines(values, lines).Some? ==>
              Of(ParseLines(values, lines).value, key)
              == if LastSet(lines, key).Some? then LastSet(lines, key) else Of(values, key)
    decreases |lines|
  {
    if lines != [] {
      var before, last := lines[..|lines| - 1], lines[|lines| - 1];
      LinesSay(values, before, key);
      assert lines == before + [last];
      OneLine(values, before, last);
      assert IsSenseless(lines) <==> IsSenseless(before) || Meaning(last).BadLine? by { SenselessMore(before, last); }
    }
  }

  lemma SenselessMore(before: seq<string>, last: string)
    ensures IsSenseless(before + [last]) <==> IsSenseless(before) || Meaning(last).BadLine?
  {
    var all := before + [last];
    assert all[|before|] == last;
    assert forall i :: 0 <= i < |before| ==> all[i] == before[i];
  }

  /** One line more. */
  lemma {:induction false} OneLine(values: map<string, string>, before: seq<string>, last: string)
    ensures var so := ParseLines(values, before);
            ParseLines(values, before + [last])
            == if so.None? || Meaning(last).BadLine? then None
               else if Meaning(last).Setting? then Some(so.value[Meaning(last).key := Meaning(last).value])
               else so
  {
    ParseAppend(values, before, [last]);
    assert [last][1..] == [];
  }

  /** Any text is refused if and only if one of its lines makes no sense; otherwise each key has the value of the last line that
      sets it, and there is no other key. */
  lemma {:induction false} ParseSays(text: string, key: string)
    ensures ParseText(text).None? <==> IsSenseless(LinesOf(text))
    ensures ParseText(text).Some? ==> Of(ParseText(text).value, key) == LastSet(LinesOf(text), key)
  {
    LinesSay(map[], LinesOf(text), key);
  }

  lemma {:induction false} LastSetIsKept(lines: seq<string>, key: string)
    ensures LastSet(lines, key).Some? ==> key !in REFUSED_KEYS && key != "" && LastSet(lines, key).value != ""
  {
    if lines != [] {
      MeaningIs(lines[|lines| - 1]);
      LastSetIsKept(lines[..|lines| - 1], key);
    }
  }

  /** What a line can mean: it makes no sense if and only if it opens a group and does not close it, or is neither a group nor empty
      and has no `=` or nothing before it; it sets only what may be read from a file, and never to nothing. */
  lemma {:induction false} MeaningIs(line: string)
    ensures var rest := Trim(StripComment(line));
            && (Meaning(line).BadLine? <==>
                  || (rest != "" && rest[0] == '[' && (|rest| == 1 || rest[|rest| - 1] != ']'))
                  || (rest != "" && rest[0] != '[' && ('=' !in rest || Upper(Trim(rest[..IndexOf(rest, '=')])) == "")))
            && (Meaning(line).Setting? ==> Meaning(line).key != "" && Meaning(line).key !in REFUSED_KEYS && Meaning(line).value != "")
  {
    var rest := Trim(StripComment(line));
    IndexOfNone(rest, '=');
  }

  lemma {:induction false} IndexOfNone(s: string, c: char)
    ensures IndexOf(s, c) == |s| <==> c !in s
  {
    if s != "" {
      IndexOfNone(s[1..], c);
      assert s == [s[0]] + s[1..];
    }
  }

  /** No secret is ever read from a file, whatever is in it, and no empty value. */
  lemma {:induction false} SecretsAreNotRead(text: string, key: string)
    requires ParseText(text).Some? && key in ParseText(text).value
    ensures key !in REFUSED_KEYS && ParseText(text).value[key] != ""
  {
    ParseSays(text, key);
    LastSetIsKept(LinesOf(text), key);
  }
}
