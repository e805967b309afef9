/** The line splitter that streams platform stages to the terminal, and the
    redaction applied to every line before it is shown or remembered. */
module StageLog {

  const CR := '\r'
  const LF := '\n'
  const TAIL_LIMIT := 20

  // ---------------------------------------------------------------- text

  predicate IsBreak(c: char) { c == CR || c == LF }

  /** Unicode white space, as trimming understands it. */
  predicate IsSpace(c: char) {
    || '\t' <= c <= '\r' || c == ' ' || c == '\U{85}' || c == '\U{A0}' || c == '\U{1680}'
    || '\U{2000}' <= c <= '\U{200A}' || c == '\U{2028}' || c == '\U{2029}'
    || c == '\U{202F}' || c == '\U{205F}' || c == '\U{3000}'
  }

  /** How many characters of leading space a string has. */
  function Leading(s: string): (k: nat)
    ensures k <= |s| && (forall i :: 0 <= i < k ==> IsSpace(s[i])) && (k < |s| ==> !IsSpace(s[k]))
  {
    if s != "" && IsSpace(s[0]) then
      var k := Leading(s[1..]);
      assert forall i :: 0 < i < k + 1 ==> s[i] == s[1..][i - 1];
      k + 1
    else 0
  }

  function TrimLeft(s: string): (r: string)
    ensures |r| <= |s| && r == s[|s| - |r|..] && (forall i :: 0 <= i < |s| - |r| ==> IsSpace(s[i])) && (r != "" ==> !IsSpace(r[0]))
  {
    s[Leading(s)..]
  }

  function TrimRight(s: string): (r: string)
    ensures r <= s && forall i :: |r| <= i < |s| ==> IsSpace(s[i])
    ensures r != "" ==> !IsSpace(r[|r| - 1])
  {
    if s != "" && IsSpace(s[|s| - 1]) then TrimRight(s[..|s| - 1]) else s
  }

  function Trim(s: string): string { TrimRight(TrimLeft(s)) }

  /** Lower-casing as far as it can produce an ASCII letter: the two non-ASCII
      letters whose simple lower case is ASCII are included. */
  function ToLower(c: char): char {
    if 'A' <= c <= 'Z' then c - 'A' + 'a'
    else if c == '\U{212A}' then 'k'
    else if c == '\U{130}' then 'i'
    else c
  }

  function Lower(s: string): (r: string)
    ensures |r| == |s|
  {
    seq(|s|, i requires 0 <= i < |s| => ToLower(s[i]))
  }

  predicate FoundAt(s: string, needle: string, k: nat) {
    k + |needle| <= |s| && s[k..k + |needle|] == needle
  }

  predicate Contains(s: string, needle: string) {
    exists k | 0 <= k <= |s| :: FoundAt(s, needle, k)
  }

  const MARKERS: seq<string> := ["token", "password", "private_key", "private-key", "sops_age_key", "database_url", "pgpassword"]

  predicate Sensitive(line: string) {
    exists m | 0 <= m < |MARKERS| :: Contains(Lower(line), MARKERS[m])
  }

  /** Position of the first ':' or '=', or -1. */
  function Separator(line: string): (k: int)
    ensures -1 <= k < |line|
    ensures k >= 0 ==> line[k] in ":="
    ensures forall i :: 0 <= i < (if k < 0 then |line| else k) ==> line[i] !in ":="
  {
    if line == "" then -1
    else if line[0] in ":=" then 0
    else var k := Separator(line[1..]); if k < 0 then -1 else k + 1
  }

  const MASK := " <redacted>"

  function RedactedLine(line: string): string {
    if Sensitive(line) && Separator(line) >= 0 then line[..Separator(line) + 1] + MASK else line
  }

  /** Split at every line feed; the result is never empty. */
  function Split(s: string): (r: seq<string>)
    ensures |r| >= 1
    ensures forall i :: 0 <= i < |r| ==> LF !in r[i]
  {
    if s == "" then [""]
    else if s[0] == LF then [""] + Split(s[1..])
    else var r := Split(s[1..]); [[s[0]] + r[0]] + r[1..]
  }

  function Join(lines: seq<string>): string {
    if lines == [] then ""
    else if |lines| == 1 then lines[0]
    else lines[0] + [LF] + Join(lines[1..])
  }

  function RedactedLines(lines: seq<string>): (r: seq<string>)
    ensures |r| == |lines|
  {
    seq(|lines|, i requires 0 <= i < |lines| => RedactedLine(lines[i]))
  }

  function Redacted(value: string): string { Join(RedactedLines(Split(value))) }

  /** Overwrites the lines one at a time, stopping at the first marker found. */
  method Redact(value: string) returns (r: string)
    ensures r == Redacted(value)
  {
    hide MARKERS, MASK, Contains, Lower, Split, Join;
    var original := Split(value);
    var lines := original;
    var index := 0;
    while index < |lines|
      invariant 0 <= index <= |lines| == |original|
      invariant forall i :: 0 <= i < index ==> lines[i] == RedactedLine(original[i])
      invariant forall i :: index <= i < |lines| ==> lines[i] == original[i]
    {
      var line := lines[index];
      var lower := Lower(line);
      var m := 0;
      while m < |MARKERS|
        invariant 0 <= m <= |MARKERS|
        invariant forall j :: 0 <= j < m ==> !Contains(lower, MARKERS[j])
        invariant |lines| == |original|
        invariant forall i :: 0 <= i < index ==> lines[i] == RedactedLine(original[i])
        invariant forall i :: index <= i < |lines| ==> lines[i] == original[i]
      {
        if Contains(lower, MARKERS[m]) {
          var separator := Separator(line);
          if separator >= 0 {
            lines := lines[index := line[..separator + 1] + MASK];
          }
          break;
        }
        m := m + 1;
      }
      assert m < |MARKERS| <==> Sensitive(line);
      assert lines[index] == RedactedLine(original[index]);
      index := index + 1;
    }
    assert lines == RedactedLines(original);
    return Join(lines);
  }

  // ---------------------------------------------------------------- specification

  /** What one complete line contributes to the output: nothing when blank. */
  function Line(line: string): seq<string> {
    var shown := Trim(Redacted(line));
    if shown == "" then [] else [shown]
  }

  /** The input cut at every CR and at every LF. */
  function Pieces(s: string): (r: seq<string>)
    ensures |r| >= 1
  {
    if s == "" then [""]
    else if IsBreak(s[0]) then [""] + Pieces(s[1..])
    else var r := Pieces(s[1..]); [[s[0]] + r[0]] + r[1..]
  }

  function LinesOf(pieces: seq<string>): seq<string> {
    if pieces == [] then [] else Line(pieces[0]) + LinesOf(pieces[1..])
  }

  /** The non-blank redacted trimmed lines of a whole input. */
  function Transcript(input: string): seq<string> { LinesOf(Pieces(input)) }

  function LastN<T>(s: seq<T>, n: nat): seq<T> { if |s| <= n then s else s[|s| - n..] }

  lemma LastNSnoc<T>(s: seq<T>, x: T, n: nat)
    requires n > 0
    ensures var t := LastN(s, n) + [x]; LastN(s + [x], n) == if |t| > n then t[|t| - n..] else t
  {
  }

  function Concat(chunks: seq<string>): string {
    if chunks == [] then "" else chunks[0] + Concat(chunks[1..])
  }

  // ---------------------------------------------------------------- incremental scan

  /** Lines completed by `s` after a pending fragment, and the new fragment. */
  function Scan(pending: string, s: string): (r: (seq<string>, string))
    decreases |s|
  {
    if s == "" then ([], pending)
    else if IsBreak(s[0]) then
      var r := Scan("", s[1..]);
      (Line(pending) + r.0, r.1)
    else Scan(pending + [s[0]], s[1..])
  }

  lemma BlankLine()
    ensures Line("") == []
  {
    hide Sensitive, IsSpace;
    assert RedactedLine("") == "" by { assert Separator("") == -1; }
    assert RedactedLines(Split("")) == [""];
  }

  lemma {:induction false} ScanAppend(pending: string, a: string, b: string)
    ensures var first := Scan(pending, a); var second := Scan(first.1, b);
            Scan(pending, a + b) == (first.0 + second.0, second.1)
    decreases |a|
  {
    hide Line;
    if a == "" {
      assert a + b == b;
      assert [] + Scan(pending, b).0 == Scan(pending, b).0;
    } else {
      assert (a + b)[1..] == a[1..] + b;
      if IsBreak(a[0]) {
        ScanAppend("", a[1..], b);
        var x, y := Scan("", a[1..]).0, Scan(Scan("", a[1..]).1, b).0;
        assert (Line(pending) + x) + y == Line(pending) + (x + y);
      } else {
        ScanAppend(pending + [a[0]], a[1..], b);
      }
    }
  }

  lemma {:induction false} ScanPlain(pending: string, s: string)
    requires forall i :: 0 <= i < |s| ==> !IsBreak(s[i])
    ensures Scan(pending, s) == ([], pending + s)
    decreases |s|
  {
    hide Line;
    if s != "" {
      ScanPlain(pending + [s[0]], s[1..]);
      assert pending + s == pending + [s[0]] + s[1..];
    } else {
      assert pending + s == pending;
    }
  }

  lemma {:induction false} ScanIsTranscript(pending: string, s: string)
    ensures var r := Scan(pending, s); var p := Pieces(s);
            r.0 + Line(r.1) == LinesOf([pending + p[0]] + p[1..])
    decreases |s|
  {
    hide Line;
    var r, p := Scan(pending, s), Pieces(s);
    if s == "" {
      assert p == [""] && pending + "" == pending;
      assert [pending + p[0]] + p[1..] == [pending];
      assert LinesOf([pending]) == Line(pending) + LinesOf([]);
    } else if IsBreak(s[0]) {
      var q := Pieces(s[1..]);
      ScanIsTranscript("", s[1..]);
      assert p == [""] + q && p[1..] == q && pending + "" == pending;
      assert [pending + p[0]] + p[1..] == [pending] + q;
      assert "" + q[0] == q[0];
      assert ["" + q[0]] + q[1..] == q;
      assert ([pending] + q)[1..] == q;
      assert r.0 + Line(r.1) == Line(pending) + (Scan("", s[1..]).0 + Line(r.1));
    } else {
      var q := Pieces(s[1..]);
      ScanIsTranscript(pending + [s[0]], s[1..]);
      assert p[1..] == q[1..] && pending + p[0] == pending + [s[0]] + q[0];
    }
  }

  function ReplaceCRLF(s: string): string {
    if s == "" then ""
    else if |s| >= 2 && s[0] == CR && s[1] == LF then [LF] + ReplaceCRLF(s[2..])
    else [s[0]] + ReplaceCRLF(s[1..])
  }

  function ReplaceCR(s: string): string {
    seq(|s|, i requires 0 <= i < |s| => if s[i] == CR then LF else s[i])
  }

  /** Collapsing CR LF drops blank lines only, so the scan cannot tell. */
  lemma {:induction false} ScanNormalized(pending: string, s: string)
    ensures Scan(pending, ReplaceCR(ReplaceCRLF(s))) == Scan(pending, s)
    decreases |s|
  {
    hide Line;
    var n := ReplaceCR(ReplaceCRLF(s));
    if s == "" {
    } else if |s| >= 2 && s[0] == CR && s[1] == LF {
      ScanNormalized("", s[2..]);
      assert n[1..] == ReplaceCR(ReplaceCRLF(s[2..])) && n[0] == LF;
      BlankLine();
      assert s[1..][1..] == s[2..];
      assert Line("") + Scan("", s[2..]).0 == Scan("", s[2..]).0;
    } else {
      assert n[1..] == ReplaceCR(ReplaceCRLF(s[1..]));
      if IsBreak(s[0]) { ScanNormalized("", s[1..]); } else { ScanNormalized(pending + [s[0]], s[1..]); }
    }
  }

  // ---------------------------------------------------------------- the writer

  class StageLogWriter {
    const prefix: string
    var destination: seq<string>   // one element per formatted write
    var pending: string
    var tail: seq<string>

    ghost var emitted: seq<string>  // every line shown so far
    ghost var flushed: seq<string>  // the part of it shown up to the last flush
    ghost var input: string         // everything written since the last flush

    ghost predicate Valid()
      reads this
    {
      && (forall i :: 0 <= i < |pending| ==> !IsBreak(pending[i]))
      && Scan("", input).1 == pending
      && emitted == flushed + Scan("", input).0
      && |destination| == |emitted|
      && (forall i :: 0 <= i < |emitted| ==> destination[i] == "[" + prefix + "] " + emitted[i] + "\n")
      && tail == LastN(emitted, TAIL_LIMIT)
    }

    constructor (prefix: string)
      ensures Valid() && emitted == [] && flushed == [] && input == "" && this.prefix == prefix
    {
      this.prefix := prefix;
      destination, pending, tail := [], "", [];
      emitted, flushed, input := [], [], "";
    }

    method Emit(text: string)
      requires |destination| == |emitted| && tail == LastN(emitted, TAIL_LIMIT)
      requires forall i :: 0 <= i < |emitted| ==> destination[i] == "[" + prefix + "] " + emitted[i] + "\n"
      modifies this`destination, this`tail, this`emitted
      ensures emitted == old(emitted) + Line(text)
      ensures |destination| == |emitted| && tail == LastN(emitted, TAIL_LIMIT)
      ensures forall i :: 0 <= i < |emitted| ==> destination[i] == "[" + prefix + "] " + emitted[i] + "\n"
    {
      hide Trim, Redacted, LastN;
      var line := Redact(text);
      line := Trim(line);
      if line == "" {
        return;
      }
      LastNSnoc(emitted, line, TAIL_LIMIT);
      destination := destination + ["[" + prefix + "] " + line + "\n"];
      tail := tail + [line];
      if |tail| > TAIL_LIMIT {
        tail := tail[|tail| - TAIL_LIMIT..];
      }
      emitted := emitted + [line];
    }

    method Write(value: string) returns (n: nat)
      requires Valid()
      modifies this
      ensures Valid() && n == |value|
      ensures input == old(input) + value && flushed == old(flushed)
    {
      hide Line, Scan;
      var text := ReplaceCR(ReplaceCRLF(value));
      ScanAppend("", input, value);
      ScanNormalized(pending, value);
      ScanPlain("", pending);
      ScanAppend("", pending, text);
      assert "" + pending == pending && [] + Scan(pending, text).0 == Scan(pending, text).0;
      ghost var start := emitted;
      pending := pending + text;
      ghost var goal := Scan("", pending);
      while true
        invariant forall i :: 0 <= i < |pending| ==> pending[i] != CR
        invariant emitted + Scan("", pending).0 == start + goal.0 && Scan("", pending).1 == goal.1
        invariant |destination| == |emitted| && tail == LastN(emitted, TAIL_LIMIT)
        invariant forall i :: 0 <= i < |emitted| ==> destination[i] == "[" + prefix + "] " + emitted[i] + "\n"
        invariant input == old(input) && flushed == old(flushed)
        decreases |pending|
      {
        var separator := IndexOf(pending, LF);
        if separator < 0 {
          ScanPlain("", pending);
          assert "" + pending == pending;
          break;
        }
        CutFirstLine(pending, separator);
        Emit(pending[..separator]);
        pending := pending[separator + 1..];
      }
      assert goal == Scan(old(pending), text) == Scan(old(pending), value);
      assert Scan("", input + value).1 == goal.1 == Scan("", pending).1;
      assert Scan("", pending).1 == pending;
      assert emitted == start + goal.0;
      input := input + value;
      return |value|;
    }

    method Flush()
      requires Valid()
      modifies this
      ensures Valid() && pending == ""
      ensures emitted == flushed == old(flushed) + Transcript(old(input)) && input == ""
    {
      hide Line;
      ScanIsTranscript("", input);
      assert "" + Pieces(input)[0] == Pieces(input)[0];
      assert ["" + Pieces(input)[0]] + Pieces(input)[1..] == Pieces(input);
      BlankLine();
      if pending != "" {
        Emit(pending);
        pending := "";
      }
      flushed, input := emitted, "";
    }

    method Tail() returns (text: string)
      requires Valid()
      ensures text == Join(LastN(emitted, 20))
    {
      return Join(tail);
    }
  }

  function IndexOf(s: string, c: char): (k: int)
    ensures -1 <= k < |s|
    ensures k < 0 ==> forall i :: 0 <= i < |s| ==> s[i] != c
    ensures k >= 0 ==> s[k] == c && forall i :: 0 <= i < k ==> s[i] != c
  {
    if s == "" then -1
    else if s[0] == c then 0
    else var k := IndexOf(s[1..], c); if k < 0 then -1 else k + 1
  }

  lemma CutFirstLine(pending: string, separator: nat)
    requires separator < |pending| && pending[separator] == LF
    requires forall i :: 0 <= i < separator ==> !IsBreak(pending[i])
    ensures Scan("", pending).0 == Line(pending[..separator]) + Scan("", pending[separator + 1..]).0
    ensures Scan("", pending).1 == Scan("", pending[separator + 1..]).1
  {
    hide Line;
    var head, rest := pending[..separator], pending[separator..];
    assert pending == head + rest && rest[1..] == pending[separator + 1..];
    ScanPlain("", head);
    ScanAppend("", head, rest);
    assert "" + head == head;
  }

  // ---------------------------------------------------------------- main results

  /** However an input is cut into writes, flushing shows exactly its transcript. */
  method Stream(prefix: string, chunks: seq<string>) returns (writer: StageLogWriter, tail: string)
    ensures writer.emitted == Transcript(Concat(chunks))
    ensures |writer.destination| == |writer.emitted|
    ensures forall i :: 0 <= i < |writer.emitted| ==> writer.destination[i] == "[" + prefix + "] " + writer.emitted[i] + "\n"
    ensures tail == Join(LastN(Transcript(Concat(chunks)), 20)) && Redacted(tail) == tail
  {
    writer := new StageLogWriter(prefix);
    var i := 0;
    assert chunks[..0] == [];
    while i < |chunks|
      invariant 0 <= i <= |chunks| && writer.Valid() && fresh(writer)
      invariant writer.input == Concat(chunks[..i]) && writer.flushed == []
    {
      var _ := writer.Write(chunks[i]);
      ConcatSnoc(chunks[..i], chunks[i]);
      assert chunks[..i + 1] == chunks[..i] + [chunks[i]];
      i := i + 1;
    }
    assert chunks[..i] == chunks;
    writer.Flush();
    tail := writer.Tail();
    TailIsStable(Concat(chunks), TAIL_LIMIT);
  }

  lemma {:induction false} ConcatSnoc(chunks: seq<string>, chunk: string)
    ensures Concat(chunks + [chunk]) == Concat(chunks) + chunk
  {
    if chunks == [] {
      assert chunks + [chunk] == [chunk];
      assert Concat([chunk]) == chunk + Concat([]);
    } else {
      assert (chunks + [chunk])[1..] == chunks[1..] + [chunk];
      ConcatSnoc(chunks[1..], chunk);
    }
  }

  // ---------------------------------------------------------------- redaction is stable

  lemma ContainsInSlice(s: string, lo: nat, hi: nat, needle: string)
    requires lo <= hi <= |s| && Contains(Lower(s[lo..hi]), needle)
    ensures Contains(Lower(s), needle)
  {
    hide ToLower;
    var part := Lower(s[lo..hi]);
    var k :| 0 <= k <= |part| && FoundAt(part, needle, k);
    var whole := Lower(s)[lo + k..lo + k + |needle|];
    assert whole == part[k..k + |needle|] by {
      forall i | 0 <= i < |needle| ensures whole[i] == part[k + i] {
        assert s[lo..hi][k + i] == s[lo + k + i];
      }
    }
    assert FoundAt(Lower(s), needle, lo + k);
  }

  lemma SensitiveSlice(s: string, lo: nat, hi: nat)
    requires lo <= hi <= |s| && Sensitive(s[lo..hi])
    ensures Sensitive(s)
  {
    var m :| 0 <= m < |MARKERS| && Contains(Lower(s[lo..hi]), MARKERS[m]);
    ContainsInSlice(s, lo, hi, MARKERS[m]);
  }

  lemma TrimIsSlice(s: string) returns (lo: nat, hi: nat)
    ensures lo <= hi <= |s| && Trim(s) == s[lo..hi]
    ensures forall i :: 0 <= i < lo || hi <= i < |s| ==> IsSpace(s[i])
  {
    hide IsSpace, TrimLeft, TrimRight;
    var left := TrimLeft(s);
    lo := |s| - |left|;
    TrimRightIsSlice(left);
    hi := lo + |TrimRight(left)|;
    assert Trim(s) == s[lo..hi];
    forall i | hi <= i < |s| ensures IsSpace(s[i]) { assert s[i] == left[i - lo]; }
  }

  lemma TrimRightIsSlice(s: string)
    ensures var r := TrimRight(s); |r| <= |s| && r == s[..|r|] && forall i :: |r| <= i < |s| ==> IsSpace(s[i])
  {
    hide IsSpace;
  }

  lemma SolidChars()
    ensures !IsSpace(':') && !IsSpace('=') && !IsSpace('>')
  {
  }

  lemma SeparatorUnique(line: string, k: nat)
    requires k < |line| && line[k] in ":=" && forall i :: 0 <= i < k ==> line[i] !in ":="
    ensures Separator(line) == k
  {
  }

  // ---------------------------------------------------------------- what redaction hides

  /** The character in either case; two letters beyond ASCII are written like ASCII ones. */
  ghost predicate Alike(c: char, letter: char) {
    || c == letter || ('A' <= c <= 'Z' && c as int + 32 == letter as int)
    || (c == '\U{212A}' && letter == 'k') || (c == '\U{130}' && letter == 'i')
  }

  ghost predicate SpelledAt(line: string, k: nat, word: string) {
    k + |word| <= |line| && forall i :: 0 <= i < |word| ==> Alike(line[k + i], word[i])
  }

  ghost predicate SpelledIn(line: string, word: string) { exists k: nat :: SpelledAt(line, k, word) }

  /** The line has a word that announces a secret. */
  ghost predicate Announces(line: string) {
    || SpelledIn(line, "token") || SpelledIn(line, "password") || SpelledIn(line, "private_key") || SpelledIn(line, "private-key")
    || SpelledIn(line, "sops_age_key") || SpelledIn(line, "database_url") || SpelledIn(line, "pgpassword")
  }

  ghost predicate FirstSeparator(line: string, k: nat) {
    k < |line| && (line[k] == ':' || line[k] == '=') && forall i :: 0 <= i < k ==> line[i] != ':' && line[i] != '='
  }

  lemma LetterIsAlike(c: char, letter: char)
    requires letter == '_' || letter == '-' || 'a' <= letter <= 'z'
    ensures ToLower(c) == letter <==> Alike(c, letter)
  {
  }

  lemma LowerIsAlike(s: string, word: string, k: nat)
    requires forall i :: 0 <= i < |word| ==> word[i] == '_' || word[i] == '-' || 'a' <= word[i] <= 'z'
    ensures FoundAt(Lower(s), word, k) <==> SpelledAt(s, k, word)
  {
    hide ToLower;
    forall i | 0 <= i < |s| && k <= i < k + |word| ensures ToLower(s[i]) == word[i - k] <==> Alike(s[i], word[i - k]) {
      LetterIsAlike(s[i], word[i - k]);
    }
    if k + |word| <= |s| {
      var part := Lower(s)[k..k + |word|];
      assert forall i :: 0 <= i < |word| ==> (part[i] == word[i] <==> Alike(s[k + i], word[i]));
    }
  }

  lemma ContainsIsSpelled(line: string, word: string)
    requires forall i :: 0 <= i < |word| ==> word[i] == '_' || word[i] == '-' || 'a' <= word[i] <= 'z'
    ensures Contains(Lower(line), word) <==> SpelledIn(line, word)
  {
    hide Lower, FoundAt;
    forall k: nat ensures FoundAt(Lower(line), word, k) <==> SpelledAt(line, k, word) {
      LowerIsAlike(line, word, k);
    }
    if SpelledIn(line, word) {
      var k: nat :| SpelledAt(line, k, word);
      assert FoundAt(Lower(line), word, k);
    }
  }

  lemma SensitiveMeans(line: string)
    ensures Sensitive(line) <==> Announces(line)
  {
    hide Lower, SpelledIn, Contains;
    forall m | 0 <= m < |MARKERS| ensures Contains(Lower(line), MARKERS[m]) <==> SpelledIn(line, MARKERS[m]) {
      ContainsIsSpelled(line, MARKERS[m]);
    }
    assert MARKERS[0] == "token" && MARKERS[1] == "password" && MARKERS[2] == "private_key" && MARKERS[3] == "private-key";
    assert MARKERS[4] == "sops_age_key" && MARKERS[5] == "database_url" && MARKERS[6] == "pgpassword";
  }

  /** Of a line that announces a secret nothing is left after its first separator;
      any other line is left alone. */
  lemma RedactionHides(line: string)
    ensures var r := RedactedLine(line);
            if Announces(line) && (exists k :: FirstSeparator(line, k)) then
              forall k :: FirstSeparator(line, k) ==> r == line[..k + 1] + " <redacted>"
            else r == line
  {
    hide Announces, Sensitive;
    SensitiveMeans(line);
    if Separator(line) >= 0 {
      assert FirstSeparator(line, Separator(line));
      forall k | FirstSeparator(line, k) ensures k == Separator(line) {
        SeparatorUnique(line, k);
      }
    }
  }

  lemma {:induction false} JoinSplit(s: string)
    ensures Join(Split(s)) == s
  {
    if s != "" {
      JoinSplit(s[1..]);
      var r := Split(s[1..]);
      if s[0] == LF {
        assert ([""] + r)[1..] == r;
      } else {
        var longer := [[s[0]] + r[0]] + r[1..];
        assert longer[1..] == r[1..] && |longer| == |r|;
      }
    }
  }

  /** Redaction keeps the lines of a text and hides the secrets of each. */
  lemma RedactedByLine(value: string)
    ensures Join(Split(value)) == value && Split(Redacted(value)) == RedactedLines(Split(value))
  {
    hide Sensitive;
    JoinSplit(value);
    var lines := RedactedLines(Split(value));
    forall i | 0 <= i < |lines| ensures LF !in lines[i] {
      var line := Split(value)[i];
      assert forall c :: c in line[..Separator(line) + 1] ==> c in line;
    }
    SplitJoin(lines);
  }

  /** White space, character by character. */
  ghost predicate White(c: char) {
    c in "\t\n\U{B}\U{C}\r \U{85}\U{A0}\U{1680}\U{2000}\U{2001}\U{2002}\U{2003}\U{2004}\U{2005}\U{2006}\U{2007}\U{2008}\U{2009}\U{200A}\U{2028}\U{2029}\U{202F}\U{205F}\U{3000}"
  }

  lemma SpaceIsWhite(c: char)
    ensures IsSpace(c) <==> White(c)
  {
  }

  /** Trimming takes the white space at both ends and nothing else. */
  lemma TrimStrips(s: string) returns (lo: nat, hi: nat)
    ensures lo <= hi <= |s| && Trim(s) == s[lo..hi] && forall i :: 0 <= i < lo || hi <= i < |s| ==> White(s[i])
    ensures Trim(s) != "" ==> !White(Trim(s)[0]) && !White(Trim(s)[|Trim(s)| - 1])
  {
    hide IsSpace, White;
    lo, hi := TrimIsSlice(s);
    forall c ensures IsSpace(c) <==> White(c) {
      SpaceIsWhite(c);
    }
  }

  /** What is shown of an input: no line that announces a secret shows what follows its separator. */
  lemma NoSecretIsShown(input: string)
    ensures forall line <- Transcript(input) :: forall k :: Announces(line) && FirstSeparator(line, k) ==> line[k + 1..] == " <redacted>"
  {
    hide Announces;
    PiecesHaveNoBreaks(input);
    LinesAreShown(Pieces(input));
    forall line, k | line in Transcript(input) && Announces(line) && FirstSeparator(line, k) ensures line[k + 1..] == " <redacted>" {
      var i :| 0 <= i < |Transcript(input)| && Transcript(input)[i] == line;
      assert RedactedLine(line) == line;
      RedactionHides(line);
    }
  }

  /** Redacting a shown line again leaves it alone. */
  lemma RedactTwice(line: string)
    ensures RedactedLine(Trim(RedactedLine(line))) == Trim(RedactedLine(line))
  {
    hide IsSpace, Sensitive, Trim;
    var once := RedactedLine(line);
    var lo, hi := TrimIsSlice(once);
    var shown := Trim(once);
    var k := Separator(line);
    if Sensitive(line) && k >= 0 {
      SolidChars();
      assert once[k] == line[k] && !IsSpace(once[k]) && !IsSpace(once[|once| - 1]);
      assert hi == |once| && lo <= k;
      assert shown == once[lo..];
      var j := k - lo;
      forall i | 0 <= i < j ensures shown[i] !in ":=" { assert shown[i] == line[lo + i]; }
      SeparatorUnique(shown, j);
      assert shown[..j + 1] + MASK == shown by { assert once == line[..k + 1] + MASK; }
    } else if Separator(shown) >= 0 {
      assert shown[Separator(shown)] == line[lo + Separator(shown)];
      if Sensitive(shown) { SensitiveSlice(once, lo, hi); }
    }
  }

  lemma {:induction false} SplitSingle(line: string)
    requires LF !in line
    ensures Split(line) == [line]
  {
    if line != "" {
      SplitSingle(line[1..]);
      assert [line[0]] + line[1..] == line;
    }
  }

  lemma {:induction false} SplitAfterLine(line: string, rest: string)
    requires LF !in line
    ensures Split(line + [LF] + rest) == [line] + Split(rest)
  {
    var s := line + [LF] + rest;
    if line == "" {
      assert s[1..] == rest;
    } else {
      assert s[1..] == line[1..] + [LF] + rest;
      SplitAfterLine(line[1..], rest);
      assert [line[0]] + line[1..] == line;
    }
  }

  lemma {:induction false} SplitJoin(lines: seq<string>)
    requires lines != [] && forall i :: 0 <= i < |lines| ==> LF !in lines[i]
    ensures Split(Join(lines)) == lines
  {
    if |lines| == 1 {
      SplitSingle(lines[0]);
    } else {
      SplitJoin(lines[1..]);
      SplitAfterLine(lines[0], Join(lines[1..]));
    }
  }

  ghost predicate Shown(lines: seq<string>) {
    forall i :: 0 <= i < |lines| ==> LF !in lines[i] && RedactedLine(lines[i]) == lines[i]
  }

  lemma LineIsShown(piece: string)
    requires LF !in piece
    ensures Shown(Line(piece))
  {
    hide IsSpace, Sensitive, Trim, Split;
    SplitSingle(piece);
    assert RedactedLines([piece]) == [RedactedLine(piece)];
    RedactTwice(piece);
    var lo, hi := TrimIsSlice(RedactedLine(piece));
  }

  lemma {:induction false} PiecesHaveNoBreaks(s: string)
    ensures forall i :: 0 <= i < |Pieces(s)| ==> LF !in Pieces(s)[i]
  {
    if s != "" { PiecesHaveNoBreaks(s[1..]); }
  }

  lemma {:induction false} LinesAreShown(pieces: seq<string>)
    requires forall i :: 0 <= i < |pieces| ==> LF !in pieces[i]
    ensures Shown(LinesOf(pieces))
  {
    if pieces != [] {
      LineIsShown(pieces[0]);
      LinesAreShown(pieces[1..]);
    }
  }

  /** Redacting a remembered tail again changes nothing. */
  lemma TailIsStable(input: string, n: nat)
    ensures var tail := Join(LastN(Transcript(input), n)); Redacted(tail) == tail
  {
    PiecesHaveNoBreaks(input);
    LinesAreShown(Pieces(input));
    var lines := LastN(Transcript(input), n);
    assert Shown(lines);
    if lines == [] {
      assert RedactedLines(Split("")) == [""];
    } else {
      SplitJoin(lines);
      assert RedactedLines(lines) == lines;
    }
  }
}
