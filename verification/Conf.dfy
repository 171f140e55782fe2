/** The config file (conf.rs): what the parser reads of a line, what the generator prints, and exactly which values come
    back as they were. Text is Unicode; comments are looked for in its UTF-8 bytes, as the parser does. */
module Conf {

  /** A secret key is not read from the file. */
  const REFUSED_KEYS: set<string> := {"ACCESS_TOKEN", "TOKEN", "PASSWORD", "PASSPHRASE"}

  /** White space, as trimming sees it: by characters. */
  predicate IsSpace(c: char) {
    var n := c as int;
    || 9 <= n <= 13 || n == 32 || n == 0x85 || n == 0xA0 || n == 0x1680 || 0x2000 <= n <= 0x200A
    || n == 0x2028 || n == 0x2029 || n == 0x202F || n == 0x205F || n == 0x3000
  }

  /** White space, as the search for a comment sees it: one byte at a time. */
  predicate IsSpaceByte(b: nat) { 9 <= b <= 13 || b == 32 || b == 0x85 || b == 0xA0 }

  /** The last byte of the character reads as white space. */
  predicate EndsLikeSpace(c: char) {
    var n := c as int;
    if n < 0x80 then IsSpace(c) else n % 64 == 0x05 || n % 64 == 0x20
  }

  predicate IsSign(c: char) { c == '#' || c == ';' }

  // ---- bytes ----

  function Utf8Char(c: char): (bytes: seq<nat>)
    ensures bytes != []
  {
    var n := c as int;
    if n < 0x80 then [n]
    else if n < 0x800 then [0xC0 + n / 64, 0x80 + n % 64]
    else if n < 0x1_0000 then [0xE0 + n / 4096, 0x80 + n / 64 % 64, 0x80 + n % 64]
    else [0xF0 + n / 262144, 0x80 + n / 4096 % 64, 0x80 + n / 64 % 64, 0x80 + n % 64]
  }

  function Utf8(s: string): seq<nat> { if s == "" then [] else Utf8Char(s[0]) + Utf8(s[1..]) }

  const QUOTE: nat := 34

  predicate IsSignByte(b: nat) { b == 35 || b == 59 }

  /** Where the comment begins in the bytes, read from a point inside or outside quotes, after a space or not. */
  function CutBytesAt(bytes: seq<nat>, inQuotes: bool, afterSpace: bool): (at: nat)
    ensures at <= |bytes|
  {
    if bytes == [] then 0
    else if IsSignByte(bytes[0]) && !inQuotes && afterSpace then 0
    else 1 + CutBytesAt(bytes[1..], if bytes[0] == QUOTE then !inQuotes else inQuotes, IsSpaceByte(bytes[0]))
  }

  // ---- reading a line ----

  /** The same by characters: where the comment begins, or the length. */
  function CutAt(line: string, inQuotes: bool, afterSpace: bool): (at: nat)
    ensures at <= |line|
  {
    if line == "" then 0
    else if IsSign(line[0]) && !inQuotes && afterSpace then 0
    else 1 + CutAt(line[1..], if line[0] == '"' then !inQuotes else inQuotes, EndsLikeSpace(line[0]))
  }

  function StripComment(line: string): string { line[..CutAt(line, false, true)] }

  /** Bytes that belong to no ASCII character are passed over; only the last of them is remembered. */
  lemma {:induction false} HighBytes(high: seq<nat>, rest: seq<nat>, inQuotes: bool, afterSpace: bool)
    requires high != [] && forall b :: b in high ==> b >= 0x80
    ensures CutBytesAt(high + rest, inQuotes, afterSpace)
         == |high| + CutBytesAt(rest, inQuotes, IsSpaceByte(high[|high| - 1]))
  {
    assert (high + rest)[0] == high[0] && high[0] in high;
    if |high| == 1 {
      assert (high + rest)[1..] == rest;
    } else {
      assert (high + rest)[1..] == high[1..] + rest;
      assert forall b :: b in high[1..] ==> b in high;
      HighBytes(high[1..], rest, inQuotes, IsSpaceByte(high[0]));
    }
  }

  lemma {:induction false} LastByte(c: char)
    requires c as int >= 0x80
    ensures var bytes := Utf8Char(c);
            && (forall b :: b in bytes ==> b >= 0x80)
            && (IsSpaceByte(bytes[|bytes| - 1]) <==> EndsLikeSpace(c))
  {
    var bytes := Utf8Char(c);
    assert bytes[|bytes| - 1] == 0x80 + c as int % 64;
  }

  /** One character of the search by characters is its bytes in the search by bytes. */
  lemma {:induction false} OneChar(c: char, rest: seq<nat>, inQuotes: bool, afterSpace: bool)
    ensures CutBytesAt(Utf8Char(c) + rest, inQuotes, afterSpace)
         == if IsSign(c) && !inQuotes && afterSpace then 0
            else |Utf8Char(c)| + CutBytesAt(rest, if c == '"' then !inQuotes else inQuotes, EndsLikeSpace(c))
  {
    var bytes := Utf8Char(c);
    if c as int < 0x80 {
      assert (bytes + rest)[0] == c as int && (bytes + rest)[1..] == rest;
    } else {
      LastByte(c);
      HighBytes(bytes, rest, inQuotes, afterSpace);
    }
  }

  /** The search by bytes and the search by characters stop at the same place. */
  lemma {:induction false} BytesCutAlike(line: string, inQuotes: bool, afterSpace: bool)
    ensures CutBytesAt(Utf8(line), inQuotes, afterSpace) == |Utf8(line[..CutAt(line, inQuotes, afterSpace)])|
  {
    if line != "" {
      var c, rest := line[0], line[1..];
      var at := CutAt(line, inQuotes, afterSpace);
      var inside := if c == '"' then !inQuotes else inQuotes;
      OneChar(c, Utf8(rest), inQuotes, afterSpace);
      if at > 0 {
        BytesCutAlike(rest, inside, EndsLikeSpace(c));
        assert line[..at][0] == c && line[..at][1..] == rest[..at - 1];
      }
    }
  }

  lemma {:induction false} Utf8Append(a: string, b: string)
    ensures Utf8(a + b) == Utf8(a) + Utf8(b)
  {
    if a == "" {
      assert a + b == b;
    } else {
      assert (a + b)[0] == a[0] && (a + b)[1..] == a[1..] + b;
      Utf8Append(a[1..], b);
    }
  }

  /** The loop over the bytes of a line: what is kept are the bytes of the characters before the comment. */
  method StripCommentOf(line: string) returns (kept: seq<nat>)
    ensures kept == Utf8(StripComment(line))
  {
    var bytes := Utf8(line);
    var inQuotes, afterSpace := false, true;
    var index := 0;
    BytesCutAlike(line, false, true);
    BytesOfKept(line);
    while index < |bytes|
      invariant 0 <= index <= |bytes|
      invariant CutBytesAt(bytes, false, true) == index + CutBytesAt(bytes[index..], inQuotes, afterSpace)
    {
      var b := bytes[index];
      if b == QUOTE {
        inQuotes := !inQuotes;
      } else if IsSignByte(b) && !inQuotes && afterSpace {
        return bytes[..index];
      }
      afterSpace := IsSpaceByte(b);
      assert bytes[index..][1..] == bytes[index + 1..];
      index := index + 1;
    }
    assert bytes[..index] == bytes;
    kept := bytes;
  }

  lemma BytesOfKept(line: string)
    ensures Utf8(StripComment(line)) <= Utf8(line)
  {
    var at := CutAt(line, false, true);
    Utf8Append(line[..at], line[at..]);
    assert line == line[..at] + line[at..];
  }

  function TrimStart(s: string): string { if s != "" && IsSpace(s[0]) then TrimStart(s[1..]) else s }

  function TrimEnd(s: string): string { if s != "" && IsSpace(s[|s| - 1]) then TrimEnd(s[..|s| - 1]) else s }

  function Trim(s: string): string { TrimEnd(TrimStart(s)) }

  predicate IsQuoted(s: string) { |s| >= 2 && s[0] == '"' && s[|s| - 1] == '"' }

  function Unquote(value: string): string { if IsQuoted(value) then value[1..|value| - 1] else value }

  /** The index of the first `c`, or the length. */
  function IndexOf(s: string, c: char): (at: nat)
    ensures at <= |s| && (at < |s| ==> s[at] == c)
  {
    if s == "" || s[0] == c then 0 else 1 + IndexOf(s[1..], c)
  }

  function Upper(s: string): string {
    if s == "" then "" else [if 'a' <= s[0] <= 'z' then (s[0] as int - 32) as char else s[0]] + Upper(s[1..])
  }

  datatype LineMeaning = Nothing | Header | Setting(key: string, value: string) | BadLine

  function Meaning(rawLine: string): LineMeaning {
    var line := Trim(StripComment(rawLine));
    if line == "" then Nothing
    else if line[0] == '[' then (if line[|line| - 1] == ']' && |line| >= 2 then Header else BadLine)
    else
      var at := IndexOf(line, '=');
      if at == |line| then BadLine
      else
        var key := Upper(Trim(line[..at]));
        var value := Unquote(Trim(line[at + 1..]));
        if key == "" then BadLine
        else if value == "" || key in REFUSED_KEYS then Nothing
        else Setting(key, value)
  }

  // ---- printing a line ----

  predicate HasPair(s: string, a: char, b: char) { exists i :: 0 <= i < |s| - 1 && s[i] == a && s[i + 1] == b }

  /** The generator's own test: only these values are put in quotes. A lone quote counts as beginning and ending with one. */
  predicate NeedsQuotes(value: string) {
    || Trim(value) != value
    || (value != "" && IsSign(value[0]))
    || HasPair(value, ' ', '#') || HasPair(value, ' ', ';')
    || (value != "" && value[0] == '"' && value[|value| - 1] == '"')
  }

  function QuoteIfNeeded(value: string): string { if NeedsQuotes(value) then "\"" + value + "\"" else value }

  function Printed(key: string, value: string, origin: string): string {
    key + "=" + QuoteIfNeeded(value) + "   ; " + origin
  }

  // ---- which values come back ----

  function Quotes(s: string): nat { if s == "" then 0 else (if s[0] == '"' then 1 else 0) + Quotes(s[1..]) }

  predicate Odd(n: nat) { n % 2 == 1 }

  /** Position `i` of the value is inside quotes, as the printed line is read. */
  predicate IsProtected(value: string, i: nat)
    requires i <= |value|
  {
    Odd(Quotes(value[..i])) != NeedsQuotes(value)
  }

  /** The quotes in the value come in pairs, and no comment sign right after a byte that reads as white space stands outside
      quotes. */
  ghost predicate ComesBack(value: string) {
    && !Odd(Quotes(value))
    && forall i :: 0 < i < |value| && IsSign(value[i]) && EndsLikeSpace(value[i - 1]) ==> IsProtected(value, i)
  }

  predicate IsKey(key: string) {
    key != "" && (forall i :: 0 <= i < |key| ==> 'A' <= key[i] <= 'Z' || key[i] == '_') && key !in REFUSED_KEYS
  }

  // ---- scanning ----

  lemma {:induction false} QuotesAppend(a: string, b: string)
    ensures Quotes(a + b) == Quotes(a) + Quotes(b)
  {
    if a == "" {
      assert a + b == b;
    } else {
      assert (a + b)[1..] == a[1..] + b;
      QuotesAppend(a[1..], b);
    }
  }

  /** A scan that finds a comment in the first part finds the same one in the whole. */
  lemma {:induction false} CutFound(a: string, b: string, inQuotes: bool, afterSpace: bool)
    requires CutAt(a, inQuotes, afterSpace) < |a|
    ensures CutAt(a + b, inQuotes, afterSpace) == CutAt(a, inQuotes, afterSpace)
  {
    assert (a + b)[1..] == a[1..] + b && (a + b)[0] == a[0];
    if !(IsSign(a[0]) && !inQuotes && afterSpace) {
      CutFound(a[1..], b, if a[0] == '"' then !inQuotes else inQuotes, EndsLikeSpace(a[0]));
    }
  }

  /** What a scan of `a` has seen at its end. */
  function EndsAfterSpace(a: string, afterSpace: bool): bool { if a == "" then afterSpace else EndsLikeSpace(a[|a| - 1]) }

  /** A scan that finds nothing in the first part goes on in the second with what it saw. */
  lemma {:induction false} CutAppend(a: string, b: string, inQuotes: bool, afterSpace: bool)
    requires CutAt(a, inQuotes, afterSpace) == |a|
    ensures CutAt(a + b, inQuotes, afterSpace) == |a| + CutAt(b, inQuotes != Odd(Quotes(a)), EndsAfterSpace(a, afterSpace))
  {
    if a == "" {
      assert a + b == b;
    } else {
      assert (a + b)[1..] == a[1..] + b && (a + b)[0] == a[0];
      assert EndsAfterSpace(a[1..], EndsLikeSpace(a[0])) == EndsAfterSpace(a, afterSpace);
      var inside := if a[0] == '"' then !inQuotes else inQuotes;
      assert inside != Odd(Quotes(a[1..])) <==> inQuotes != Odd(Quotes(a));
      CutAppend(a[1..], b, inside, EndsLikeSpace(a[0]));
    }
  }

  /** Every comment sign after a space is inside quotes. */
  ghost predicate AllInside(s: string, inQuotes: bool, afterSpace: bool) {
    forall i :: 0 <= i < |s| && SignAt(s, i, afterSpace) ==> inQuotes != Odd(Quotes(s[..i]))
  }

  predicate SignAt(s: string, i: nat, afterSpace: bool)
    requires i < |s|
  {
    IsSign(s[i]) && if i == 0 then afterSpace else EndsLikeSpace(s[i - 1])
  }

  lemma {:induction false} AllInsideStep(s: string, inQuotes: bool, afterSpace: bool)
    requires s != ""
    ensures AllInside(s, inQuotes, afterSpace) <==>
              (SignAt(s, 0, afterSpace) ==> inQuotes)
              && AllInside(s[1..], if s[0] == '"' then !inQuotes else inQuotes, EndsLikeSpace(s[0]))
  {
    var rest := s[1..];
    var inside := if s[0] == '"' then !inQuotes else inQuotes;
    assert s[..0] == "";
    forall i | 0 < i < |s|
      ensures (inQuotes != Odd(Quotes(s[..i]))) == (inside != Odd(Quotes(rest[..i - 1])))
      ensures SignAt(s, i, afterSpace) == SignAt(rest, i - 1, EndsLikeSpace(s[0]))
    {
      assert s[..i][1..] == rest[..i - 1];
      assert rest[i - 1] == s[i];
    }
    if AllInside(s, inQuotes, afterSpace) {
      forall j | 0 <= j < |rest| && SignAt(rest, j, EndsLikeSpace(s[0])) ensures inside != Odd(Quotes(rest[..j])) {
        assert SignAt(s, j + 1, afterSpace);
      }
    }
    if (SignAt(s, 0, afterSpace) ==> inQuotes) && AllInside(rest, inside, EndsLikeSpace(s[0])) {
      forall i | 0 <= i < |s| && SignAt(s, i, afterSpace) ensures inQuotes != Odd(Quotes(s[..i])) {
        if i > 0 { assert SignAt(rest, i - 1, EndsLikeSpace(s[0])); }
      }
    }
  }

  /** The scan finds nothing if and only if every sign after a space is inside quotes. */
  lemma {:induction false} NoCutIff(s: string, inQuotes: bool, afterSpace: bool)
    ensures CutAt(s, inQuotes, afterSpace) == |s| <==> AllInside(s, inQuotes, afterSpace)
  {
    if s != "" {
      AllInsideStep(s, inQuotes, afterSpace);
      NoCutIff(s[1..], if s[0] == '"' then !inQuotes else inQuotes, EndsLikeSpace(s[0]));
    }
  }

  // ---- one printed line read back ----

  lemma {:induction false} TrimIsInside(s: string)
    ensures |Trim(s)| <= |s| && (forall c :: c in Trim(s) ==> c in s)
    ensures s != "" && !IsSpace(s[0]) ==> TrimStart(s) == s
    ensures s != "" && !IsSpace(s[|s| - 1]) ==> TrimEnd(s) == s
  {
    TrimStartInside(s);
    TrimEndInside(TrimStart(s));
  }

  lemma {:induction false} TrimStartInside(s: string)
    ensures |TrimStart(s)| <= |s| && forall c :: c in TrimStart(s) ==> c in s
  {
    if s != "" && IsSpace(s[0]) { TrimStartInside(s[1..]); }
  }

  lemma {:induction false} TrimEndInside(s: string)
    ensures TrimEnd(s) <= s
  {
    if s != "" && IsSpace(s[|s| - 1]) { TrimEndInside(s[..|s| - 1]); }
  }

  /** Spaces after something that does not end in one are trimmed, and nothing else. */
  lemma {:induction false} TrimEndSpaces(s: string, spaces: string)
    requires s != "" && !IsSpace(s[|s| - 1]) && forall i :: 0 <= i < |spaces| ==> IsSpace(spaces[i])
    ensures TrimEnd(s + spaces) == s
    decreases |spaces|
  {
    if spaces == "" {
      assert s + spaces == s;
    } else {
      assert (s + spaces)[..|s + spaces| - 1] == s + spaces[..|spaces| - 1];
      assert (s + spaces)[|s + spaces| - 1] == spaces[|spaces| - 1];
      TrimEndSpaces(s, spaces[..|spaces| - 1]);
    }
  }

  /** What is printed for a value neither begins nor ends with a space. */
  lemma {:induction false} QuotedIsTrimmed(value: string)
    requires value != ""
    ensures var q := QuoteIfNeeded(value);
            q != "" && !IsSpace(q[0]) && !IsSpace(q[|q| - 1])
  {
    if !NeedsQuotes(value) {
      if IsSpace(value[0]) {
        TrimStartInside(value[1..]);
        TrimEndInside(TrimStart(value));
      } else if IsSpace(value[|value| - 1]) {
        assert TrimStart(value) == value;
        TrimEndInside(value[..|value| - 1]);
      }
    }
  }

  lemma {:induction false} TrimEndAppend(a: string, rest: string)
    requires a != "" && !IsSpace(a[|a| - 1])
    ensures TrimEnd(a + rest) == a + TrimEnd(rest)
    decreases |rest|
  {
    if rest == "" {
      assert a + rest == a;
    } else if IsSpace(rest[|rest| - 1]) {
      assert (a + rest)[..|a + rest| - 1] == a + rest[..|rest| - 1];
      TrimEndAppend(a, rest[..|rest| - 1]);
    }
  }

  lemma {:induction false} IndexOfFirst(a: string, c: char, rest: string)
    requires c !in a
    ensures IndexOf(a + [c] + rest, c) == |a|
  {
    if a == "" {
      assert a + [c] + rest == [c] + rest;
    } else {
      assert (a + [c] + rest)[1..] == a[1..] + [c] + rest;
      IndexOfFirst(a[1..], c, rest);
    }
  }

  lemma {:induction false} UpperOfKey(key: string)
    requires forall i :: 0 <= i < |key| ==> 'A' <= key[i] <= 'Z' || key[i] == '_'
    ensures Upper(key) == key
  {
    if key != "" { UpperOfKey(key[1..]); }
  }

  /** The value read when `rest` is what stands after the equals sign, comment gone. */
  function ValueOf(rest: string): string { Unquote(Trim(TrimEnd(rest))) }

  lemma {:induction false} KeptMeaning(line: string, key: string, rest: string)
    requires IsKey(key) && StripComment(line) == key + "=" + rest
    ensures Meaning(line) == if ValueOf(rest) == "" then Nothing else Setting(key, ValueOf(rest))
  {
    var a := key + "=";
    assert a + rest == key + "=" + rest;
    assert !IsSpace(a[0]) && TrimStart(a + rest) == a + rest;
    TrimEndAppend(a, rest);
    var kept := a + TrimEnd(rest);
    assert Trim(StripComment(line)) == kept;
    assert '=' !in key;
    IndexOfFirst(key, '=', TrimEnd(rest));
    assert kept == key + ['='] + TrimEnd(rest);
    assert kept[..|key|] == key && kept[|key| + 1..] == TrimEnd(rest);
    assert !IsSpace(key[0]) && !IsSpace(key[|key| - 1]);
    assert Trim(key) == key;
    UpperOfKey(key);
  }

  /** Up to the equals sign there is nothing to cut and no quote. */
  lemma {:induction false} KeyScans(key: string)
    requires IsKey(key)
    ensures CutAt(key + "=", false, true) == |key| + 1 && Quotes(key + "=") == 0
  {
    var a := key + "=";
    assert forall i :: 0 <= i < |a| ==> !IsSign(a[i]) && a[i] != '"';
    NoQuotes(a);
    NoCutIff(a, false, true);
  }

  lemma {:induction false} NoQuotes(s: string)
    requires '"' !in s
    ensures Quotes(s) == 0
  {
    if s != "" { NoQuotes(s[1..]); }
  }

  const TAIL := "   ; "

  /** The printed comment is found outside quotes and not inside. */
  lemma {:induction false} TailScans(origin: string, afterSpace: bool)
    requires '"' !in origin
    ensures CutAt(TAIL + origin, false, afterSpace) == 3
    ensures CutAt(TAIL + origin, true, afterSpace) == |TAIL + origin|
  {
    var tail := TAIL + origin;
    var spaces, rest := "   ", "; " + origin;
    assert tail == spaces + rest && '"' !in tail;
    NoQuotes(spaces);
    NoCutIff(spaces, false, afterSpace);
    CutAppend(spaces, rest, false, afterSpace);
    forall i | 0 <= i <= |tail| ensures Quotes(tail[..i]) == 0 { NoQuotes(tail[..i]); }
    NoCutIff(tail, true, afterSpace);
  }

  lemma {:induction false} ValueScans(q: string, origin: string)
    requires q != "" && '"' !in origin
    ensures var cut := CutAt(q, false, false);
            CutAt(q + (TAIL + origin), false, false)
            == if cut < |q| then cut else if Odd(Quotes(q)) then |q| + |TAIL + origin| else |q| + 3
  {
    TailScans(origin, EndsLikeSpace(q[|q| - 1]));
    if CutAt(q, false, false) < |q| {
      CutFound(q, TAIL + origin, false, false);
    } else {
      CutAppend(q, TAIL + origin, false, false);
    }
  }

  lemma {:induction false} PrintedScans(key: string, value: string, origin: string)
    requires IsKey(key) && value != "" && '"' !in origin
    ensures var q := QuoteIfNeeded(value);
            var cut := CutAt(q, false, false);
            StripComment(Printed(key, value, origin))
            == key + "=" + if cut < |q| then q[..cut] else if Odd(Quotes(q)) then q + TAIL + origin else q + "   "
  {
    var q := QuoteIfNeeded(value);
    var a := key + "=";
    var tail := TAIL + origin;
    var line := Printed(key, value, origin);
    assert line == a + (q + tail);
    KeyScans(key);
    CutAppend(a, q + tail, false, true);
    QuotedIsTrimmed(value);
    ValueScans(q, origin);
    var cut := CutAt(q, false, false);
    if cut < |q| {
      assert (a + (q + tail))[..|a| + cut] == a + q[..cut];
    } else if Odd(Quotes(q)) {
      assert line[..|line|] == line;
    } else {
      assert tail[..3] == "   ";
      assert (a + (q + tail))[..|a| + (|q| + 3)] == a + (q + tail[..3]);
    }
  }

  lemma {:induction false} CutIsAtSign(s: string, inQuotes: bool, afterSpace: bool)
    requires CutAt(s, inQuotes, afterSpace) < |s|
    ensures IsSign(s[CutAt(s, inQuotes, afterSpace)])
  {
    if !(IsSign(s[0]) && !inQuotes && afterSpace) {
      CutIsAtSign(s[1..], if s[0] == '"' then !inQuotes else inQuotes, EndsLikeSpace(s[0]));
    }
  }

  lemma {:induction false} ValueIsShort(rest: string)
    ensures |ValueOf(rest)| <= |rest|
    ensures |ValueOf(rest)| == |rest| ==> ValueOf(rest) == rest
  {
    TrimEndInside(rest);
    TrimStartInside(TrimEnd(rest));
    TrimEndInside(TrimStart(TrimEnd(rest)));
    TrimStartSame(TrimEnd(rest));
  }

  lemma {:induction false} TrimStartSame(s: string)
    ensures |TrimStart(s)| == |s| ==> TrimStart(s) == s
  {
    if s != "" && IsSpace(s[0]) { TrimStartInside(s[1..]); }
  }

  /** Cut inside what was printed: something else comes back. */
  lemma {:induction false} CutLosesText(value: string)
    requires value != ""
    requires var q := QuoteIfNeeded(value); CutAt(q, false, false) < |q|
    ensures var q := QuoteIfNeeded(value); ValueOf(q[..CutAt(q, false, false)]) != value
  {
    var q := QuoteIfNeeded(value);
    var n := CutAt(q, false, false);
    CutIsAtSign(q, false, false);
    var rest := q[..n];
    ValueIsShort(rest);
    if NeedsQuotes(value) {
      assert q[|q| - 1] == '"';
      if n == |value| {
        assert rest == "\"" + value[..n - 1] && value == value[..n - 1] + [q[n]];
        QuotesAppend("\"", value[..n - 1]);
        QuotesAppend(value[..n - 1], [q[n]]);
        assert Quotes("\"") == 1 && Quotes([q[n]]) == 0;
      }
    }
  }

  /** The comment swallowed: what comes back is longer. */
  lemma {:induction false} TailAddsText(value: string, origin: string)
    requires value != "" && '"' !in origin
    ensures |ValueOf(QuoteIfNeeded(value) + TAIL + origin)| > |value|
  {
    var q := QuoteIfNeeded(value);
    QuotedIsTrimmed(value);
    var upToSign := q + "   ;";
    var after := " " + origin;
    assert q + TAIL + origin == upToSign + after;
    TrimEndAppend(upToSign, after);
    TrimEndInside(after);
    var kept := upToSign + TrimEnd(after);
    assert kept[0] == q[0];
    assert TrimStart(kept) == kept;
    assert kept[|kept| - 1] != '"' by {
      assert TrimEnd(after) == "" ==> kept[|kept| - 1] == ';';
      assert TrimEnd(after) != "" ==> kept[|kept| - 1] == after[|TrimEnd(after)| - 1] && '"' !in after;
    }
    TrimEndTwice(upToSign + after);
  }

  lemma {:induction false} TrimEndTwice(s: string)
    ensures TrimEnd(TrimEnd(s)) == TrimEnd(s)
  {
    if s != "" && IsSpace(s[|s| - 1]) { TrimEndTwice(s[..|s| - 1]); }
  }

  lemma {:induction false} NothingLost(value: string)
    requires value != ""
    ensures ValueOf(QuoteIfNeeded(value) + "   ") == value
  {
    var q := QuoteIfNeeded(value);
    QuotedIsTrimmed(value);
    TrimEndSpaces(q, "   ");
    assert Trim(q) == q;
    if NeedsQuotes(value) { assert q[1..|q| - 1] == value; }
  }

  /** The scan of the printed value and the condition on the value are the same thing. */
  lemma {:induction false} ComesBackIffUncut(value: string)
    requires value != ""
    ensures var q := QuoteIfNeeded(value);
            ComesBack(value) <==> CutAt(q, false, false) == |q| && !Odd(Quotes(q))
  {
    var q := QuoteIfNeeded(value);
    if NeedsQuotes(value) {
      var mid := value + "\"";
      assert q == "\"" + mid && q[1..] == mid;
      QuotesAppend("\"", mid);
      QuotesAppend(value, "\"");
      assert Quotes("\"") == 1;
      CutAppend("\"", mid, false, false);
      if CutAt(value, true, false) < |value| { CutFound(value, "\"", true, false); } else { CutAppend(value, "\"", true, false); }
      assert CutAt("\"", true != Odd(Quotes(value)), EndsLikeSpace(value[|value| - 1])) == 1;
      NoCutIff(value, true, false);
      InsideIsProtected(value, true);
    } else {
      NoCutIff(value, false, false);
      InsideIsProtected(value, false);
    }
  }

  lemma {:induction false} InsideIsProtected(value: string, inQuotes: bool)
    requires value != "" && inQuotes == NeedsQuotes(value)
    ensures AllInside(value, inQuotes, false) <==>
              forall i :: 0 < i < |value| && IsSign(value[i]) && EndsLikeSpace(value[i - 1]) ==> IsProtected(value, i)
  {
    if AllInside(value, inQuotes, false) {
      forall i | 0 < i < |value| && IsSign(value[i]) && EndsLikeSpace(value[i - 1]) ensures IsProtected(value, i) {
        assert SignAt(value, i, false);
      }
    }
    if forall i :: 0 < i < |value| && IsSign(value[i]) && EndsLikeSpace(value[i - 1]) ==> IsProtected(value, i) {
      forall i | 0 <= i < |value| && SignAt(value, i, false) ensures inQuotes != Odd(Quotes(value[..i])) {
        assert IsProtected(value, i);
      }
    }
  }

  /** A printed line gives its value back if and only if the value's quotes pair up and no comment sign right after a byte that
      reads as white space stands outside them; the comment that says where the value came from does not matter. */
  lemma {:induction false} LineComesBackIff(key: string, value: string, origin: string)
    requires IsKey(key) && value != "" && '"' !in origin
    ensures Meaning(Printed(key, value, origin)) == Setting(key, value) <==> ComesBack(value)
  {
    var q := QuoteIfNeeded(value);
    var cut := CutAt(q, false, false);
    var line := Printed(key, value, origin);
    PrintedScans(key, value, origin);
    ComesBackIffUncut(value);
    if cut < |q| {
      KeptMeaning(line, key, q[..cut]);
      CutLosesText(value);
    } else if Odd(Quotes(q)) {
      assert key + "=" + (q + TAIL + origin) == StripComment(line);
      KeptMeaning(line, key, q + TAIL + origin);
      TailAddsText(value, origin);
    } else {
      KeptMeaning(line, key, q + "   ");
      NothingLost(value);
    }
  }

  // ---- families of values ----

  /** Without a quote in it a value comes back if and only if it was put in quotes or no sign follows a byte that reads as
      white space. */
  lemma {:induction false} UnquotedComesBackIff(value: string)
    requires '"' !in value
    ensures ComesBack(value) <==>
              NeedsQuotes(value) || forall i :: 0 < i < |value| && IsSign(value[i]) ==> !EndsLikeSpace(value[i - 1])
  {
    NoQuotes(value);
    forall i | 0 <= i <= |value| ensures Quotes(value[..i]) == 0 { NoQuotes(value[..i]); }
    if ComesBack(value) && !NeedsQuotes(value) {
      forall i | 0 < i < |value| && IsSign(value[i]) ensures !EndsLikeSpace(value[i - 1]) {
        assert EndsLikeSpace(value[i - 1]) ==> IsProtected(value, i);
      }
    }
  }

  lemma SpaceAndSignAreQuoted(value: string, i: nat)
    requires 0 < i < |value| && IsSign(value[i]) && value[i - 1] == ' '
    ensures NeedsQuotes(value)
  {
    assert HasPair(value, ' ', value[i]);
  }

  /** No quote, and before a sign nothing that reads as white space but a plain space: such a value comes back. So does every
      ASCII value with no quote and plain spaces only. */
  lemma {:induction false} PlainComesBack(value: string)
    requires '"' !in value
    requires forall i :: 0 < i < |value| && IsSign(value[i]) && EndsLikeSpace(value[i - 1]) ==> value[i - 1] == ' '
    ensures ComesBack(value)
  {
    UnquotedComesBackIff(value);
    if !NeedsQuotes(value) {
      forall i | 0 < i < |value| && IsSign(value[i]) ensures !EndsLikeSpace(value[i - 1]) {
        if value[i - 1] == ' ' { SpaceAndSignAreQuoted(value, i); }
      }
    }
  }

  /** An accented letter can end like a space: what follows its sign is taken for a comment. */
  lemma {:induction false} AccentIsCut(key: string, origin: string)
    requires IsKey(key) && '"' !in origin
    ensures Meaning(Printed(key, "\U{00E0}#b", origin)) != Setting(key, "\U{00E0}#b")
  {
    assert !ComesBack("\U{00E0}#b") by { AccentNeedsNoQuotes(); UnquotedComesBackIff("\U{00E0}#b"); }
    LineComesBackIff(key, "\U{00E0}#b", origin);
  }

  lemma AccentNeedsNoQuotes()
    ensures !NeedsQuotes("\U{00E0}#b") && EndsLikeSpace('\U{00E0}') && '"' !in "\U{00E0}#b"
    ensures "\U{00E0}#b"[1] == '#' && "\U{00E0}#b"[0] == '\U{00E0}' && |"\U{00E0}#b"| == 3
  {
    var value := "\U{00E0}#b";
    TrimIsInside(value);
  }

  /** A value in quotes of its own, with none inside and no comment sign right after a space, comes back. */
  lemma {:induction false} QuotedComesBack(inner: string)
    requires '"' !in inner && forall i :: 0 < i < |inner| && IsSign(inner[i]) ==> !EndsLikeSpace(inner[i - 1])
    ensures ComesBack("\"" + inner + "\"")
  {
    var value := "\"" + inner + "\"";
    NoQuotes(inner);
    QuotesAppend("\"" + inner, "\"");
    QuotesAppend("\"", inner);
    assert Quotes("\"") == 1;
    forall i | 0 < i < |value| && IsSign(value[i]) ensures !EndsLikeSpace(value[i - 1]) {
      assert value[i] == inner[i - 1];
      assert i > 1 ==> value[i - 1] == inner[i - 2];
    }
  }

  lemma {:induction false} OneQuote(value: string, at: nat)
    requires at < |value| && value[at] == '"' && '"' !in value[..at] && '"' !in value[at + 1..]
    ensures Quotes(value) == 1
  {
    var before, after := value[..at], value[at + 1..];
    assert value == before + (['"'] + after);
    QuotesAppend(before, ['"'] + after);
    NoQuotes(before);
    NoQuotes(after);
    assert (['"'] + after)[1..] == after;
  }

  /** One quote in a value swallows the comment: such a value does not come back. */
  lemma {:induction false} LoneQuoteIsLost(key: string, value: string, at: nat, origin: string)
    requires IsKey(key) && '"' !in origin
    requires at < |value| && value[at] == '"' && '"' !in value[..at] && '"' !in value[at + 1..]
    ensures Meaning(Printed(key, value, origin)) != Setting(key, value)
  {
    assert !ComesBack(value) by { OneQuote(value, at); }
    LineComesBackIff(key, value, origin);
  }
}
