/**
 The normalisation of a template's text before it is parsed
 (internal/templates/templates.go): every line is trimmed and blank lines go.
 */
module Templates {
  import opened Wrappers
  import opened Text

  // What a line scanner can hold of one line, in bytes.
  const MAX_TOKEN: nat := 64 * 1024

  function Bytes(s: string): nat {
    if s == "" then 0
    else Bytes(s[..|s| - 1]) + (var c := s[|s| - 1];
      if c < '\U{80}' then 1 else if c < '\U{800}' then 2 else if c < '\U{10000}' then 3 else 4)
  }

  // The text split at newlines, without a line after the last newline; `open` is what has
  // been read of the current line.
  function SplitFrom(text: string, open: string): seq<string>
    decreases |text|
  {
    if text == "" then (if open == "" then [] else [open])
    else if text[0] == '\n' then [open] + SplitFrom(text[1..], "")
    else SplitFrom(text[1..], open + [text[0]])
  }

  function Lines(text: string): seq<string> {
    SplitFrom(text, "")
  }

  // The scanner drops one carriage return at the end of a line.
  function DropCR(line: string): string {
    if line != "" && line[|line| - 1] == '\r' then line[..|line| - 1] else line
  }

  function Stripped(line: string): string {
    Trim(DropCR(line))
  }

  // The trimmed lines that are not blank, in order.
  function Kept(lines: seq<string>): seq<string> {
    if lines == [] then []
    else
      var rest := Kept(lines[..|lines| - 1]);
      var line := Stripped(lines[|lines| - 1]);
      if line == "" then rest else rest + [line]
  }

  // Each line with a newline after it.
  function Ended(lines: seq<string>): string {
    if lines == [] then "" else Ended(lines[..|lines| - 1]) + lines[|lines| - 1] + "\n"
  }

  function Prepared(text: string): string {
    Ended(Kept(Lines(text)))
  }

  predicate Scannable(text: string) {
    forall line :: line in Lines(text) ==> Bytes(line) < MAX_TOKEN
  }

  lemma OneMoreLine(lines: seq<string>, i: nat)
    requires i < |lines|
    ensures Stripped(lines[i]) == "" ==> Ended(Kept(lines[..i + 1])) == Ended(Kept(lines[..i]))
    ensures Stripped(lines[i]) != "" ==>
              Ended(Kept(lines[..i + 1])) == Ended(Kept(lines[..i])) + (Stripped(lines[i]) + "\n")
  {
    var line, kept := Stripped(lines[i]), Kept(lines[..i]);
    assert lines[..i + 1][..i] == lines[..i];
    if line != "" {
      assert (kept + [line])[..|kept|] == kept;
      assert Ended(kept) + line + "\n" == Ended(kept) + (line + "\n");
    }
  }

  // A text cannot be scanned exactly if one of its lines has 65536 bytes or more.
  lemma TooLongExactly(text: string)
    ensures !Scannable(text) <==> exists line :: line in Lines(text) && Bytes(line) >= 65536
  {
  }

  // The part of CompileTemplate before the parser.
  method Prepare(text: string) returns (res: Option<string>)
    ensures res == if Scannable(text) then Some(Prepared(text)) else None
  {
    var lines := Lines(text);
    var buf := "";
    for i := 0 to |lines|
      invariant buf == Ended(Kept(lines[..i]))
      invariant forall k :: 0 <= k < i ==> Bytes(lines[k]) < MAX_TOKEN
    {
      if Bytes(lines[i]) >= MAX_TOKEN {
        return None;
      }
      OneMoreLine(lines, i);
      var line := Stripped(lines[i]);
      if line != "" {
        buf := buf + (line + "\n");
      }
    }
    assert lines[..|lines|] == lines;
    return Some(buf);
  }

  // What the prepared text is made of.
  predicate Clean(lines: seq<string>) {
    forall line :: line in lines ==> line != "" && Trimmed(line) && '\n' !in line
  }

  lemma {:induction false} LinesHaveNoNewline(text: string, open: string)
    requires '\n' !in open
    ensures forall line :: line in SplitFrom(text, open) ==> '\n' !in line
    decreases |text|
  {
    if text == "" {
    } else if text[0] == '\n' {
      LinesHaveNoNewline(text[1..], "");
    } else {
      LinesHaveNoNewline(text[1..], open + [text[0]]);
    }
  }

  lemma {:induction false} KeptIsClean(lines: seq<string>)
    requires forall line :: line in lines ==> '\n' !in line
    ensures Clean(Kept(lines))
  {
    if lines != [] {
      var front, last := lines[..|lines| - 1], lines[|lines| - 1];
      assert lines == front + [last];
      KeptIsClean(front);
      assert last in lines;
      assert forall c :: c in DropCR(last) ==> c in last;
      TrimBares(DropCR(last));
    }
  }

  lemma {:induction false} ReadLine(line: string, rest: string, open: string)
    requires '\n' !in line
    ensures SplitFrom(line + "\n" + rest, open) == [open + line] + SplitFrom(rest, "")
    decreases |line|
  {
    if line == "" {
      assert line + "\n" + rest == "\n" + rest;
      assert open + line == open;
    } else {
      assert line + "\n" + rest == [line[0]] + (line[1..] + "\n" + rest);
      ReadLine(line[1..], rest, open + [line[0]]);
      assert open + [line[0]] + line[1..] == open + line;
    }
  }

  lemma Regroup(a: string, b: string, c: string, d: string)
    ensures (a + b) + c + d == a + (b + c + d)
  {
  }

  lemma {:induction false} EndedFromFront(lines: seq<string>)
    requires lines != []
    ensures Ended(lines) == (lines[0] + "\n") + Ended(lines[1..])
  {
    var n := |lines| - 1;
    if n == 0 {
      assert Ended(lines[..0]) == "";
      Regroup("", lines[0], "\n", "");
    } else {
      EndedFromFront(lines[..n]);
      assert lines[1..][..n - 1] == lines[..n][1..];
      Regroup(lines[0] + "\n", Ended(lines[..n][1..]), lines[n], "\n");
    }
  }

  // Reading back the prepared text gives its lines.
  lemma {:induction false} LinesOfEnded(lines: seq<string>)
    requires Clean(lines)
    ensures Lines(Ended(lines)) == lines
  {
    if lines != [] {
      EndedFromFront(lines);
      ReadLine(lines[0], Ended(lines[1..]), "");
      assert "" + lines[0] == lines[0];
      LinesOfEnded(lines[1..]);
    }
  }

  lemma TrimmedStays(line: string)
    requires line != "" && Trimmed(line)
    ensures Stripped(line) == line
  {
  }

  lemma {:induction false} KeptOfClean(lines: seq<string>)
    requires Clean(lines)
    ensures Kept(lines) == lines
  {
    if lines != [] {
      var front, last := lines[..|lines| - 1], lines[|lines| - 1];
      assert lines == front + [last];
      assert forall line :: line in front ==> line in lines;
      KeptOfClean(front);
      assert last in lines;
      TrimmedStays(last);
    }
  }

  // The prepared text has exactly the trimmed lines of the text that are not blank, in
  // order, and preparing it again changes nothing.
  lemma PreparedIsStable(text: string)
    ensures Clean(Lines(Prepared(text))) && Lines(Prepared(text)) == Kept(Lines(text))
    ensures Prepared(Prepared(text)) == Prepared(text)
  {
    var kept := Kept(Lines(text));
    LinesHaveNoNewline(text, "");
    KeptIsClean(Lines(text));
    LinesOfEnded(kept);
    KeptOfClean(kept);
  }

  lemma {:induction false} SuffixBytes(s: string)
    requires s != ""
    ensures Bytes(s[1..]) <= Bytes(s)
  {
    var n := |s| - 1;
    if n > 0 {
      SuffixBytes(s[..n]);
      assert s[1..][..n - 1] == s[..n][1..];
    }
  }

  lemma {:induction false} TrimLeftBytes(s: string)
    ensures Bytes(TrimLeft(s)) <= Bytes(s)
  {
    if s != "" && IsSpace(s[0]) {
      SuffixBytes(s);
      TrimLeftBytes(s[1..]);
    }
  }

  lemma {:induction false} TrimRightBytes(s: string)
    ensures Bytes(TrimRight(s)) <= Bytes(s)
  {
    if s != "" && IsSpace(s[|s| - 1]) {
      TrimRightBytes(s[..|s| - 1]);
    }
  }

  lemma StrippedBytes(line: string)
    ensures Bytes(Stripped(line)) <= Bytes(line)
  {
    TrimLeftBytes(DropCR(line));
    TrimRightBytes(TrimLeft(DropCR(line)));
  }

  lemma {:induction false} KeptAreShort(lines: seq<string>)
    requires forall line :: line in lines ==> Bytes(line) < MAX_TOKEN
    ensures forall line :: line in Kept(lines) ==> Bytes(line) < MAX_TOKEN
  {
    if lines != [] {
      assert lines == lines[..|lines| - 1] + [lines[|lines| - 1]];
      KeptAreShort(lines[..|lines| - 1]);
      StrippedBytes(lines[|lines| - 1]);
    }
  }

  // A text that could be prepared can be prepared again.
  lemma PreparedIsScannable(text: string)
    requires Scannable(text)
    ensures Scannable(Prepared(text))
  {
    PreparedIsStable(text);
    KeptAreShort(Lines(text));
  }

  // ---- splitting and keeping lose nothing ----

  predicate IsEnded(text: string) {
    text == "" || text[|text| - 1] == '\n'
  }

  // The text with a newline after a last line that has none; `open` belongs to it.
  function Whole(open: string, text: string): string {
    if IsEnded(text) && (text == "" ==> open == "") then open + text else open + text + "\n"
  }

  lemma WholeAfterNewline(open: string, rest: string)
    ensures Whole(open, "\n" + rest) == (open + "\n") + Whole("", rest)
  {
    var text := "\n" + rest;
    assert open + text == (open + "\n") + rest;
    assert rest != "" ==> text[|text| - 1] == rest[|rest| - 1];
    assert "" + rest == rest;
    Regroup("", open + "\n", rest, "\n");
  }

  lemma WholeMovesOn(open: string, c: char, rest: string)
    requires c != '\n'
    ensures Whole(open, [c] + rest) == Whole(open + [c], rest)
  {
    var text := [c] + rest;
    assert open + text == open + [c] + rest;
    assert rest != "" ==> text[|text| - 1] == rest[|rest| - 1];
  }

  lemma {:induction false} SplitJoins(text: string, open: string)
    requires '\n' !in open
    ensures Ended(SplitFrom(text, open)) == Whole(open, text)
    decreases |text|
  {
    if text == "" {
      assert Ended([open]) == Ended([open][..0]) + open + "\n";
      assert open + text == open;
    } else {
      var c, rest := text[0], text[1..];
      assert text == [c] + rest;
      if c == '\n' {
        SplitJoins(rest, "");
        WholeAfterNewline(open, rest);
        EndedFromFront([open] + SplitFrom(rest, ""));
        assert ([open] + SplitFrom(rest, ""))[1..] == SplitFrom(rest, "");
      } else {
        SplitJoins(rest, open + [c]);
        WholeMovesOn(open, c, rest);
      }
    }
  }

  // The lines of a text, each ended by a newline, are the text again, with a newline after
  // a last line that had none; and no line has a newline.
  lemma LinesAreTheText(text: string)
    ensures Ended(Lines(text)) == if IsEnded(text) then text else text + "\n"
    ensures forall line :: line in Lines(text) ==> '\n' !in line
  {
    SplitJoins(text, "");
    LinesHaveNoNewline(text, "");
    assert "" + text == text;
  }

  // Each line is kept or not by itself: trimmed, unless it is blank.
  lemma KeptOfOne(line: string)
    ensures Kept([line]) == if Trim(line) == "" then [] else [Trim(line)]
  {
    TrimWithoutCR(line);
    assert [line][..0] == [];
  }

  lemma {:induction false} KeptAdds(a: seq<string>, b: seq<string>)
    ensures Kept(a + b) == Kept(a) + Kept(b)
  {
    if b == [] {
      assert a + b == a;
    } else {
      assert (a + b)[..|a + b| - 1] == a + b[..|b| - 1];
      KeptAdds(a, b[..|b| - 1]);
    }
  }

  lemma TrimWithoutCR(line: string)
    ensures Trim(DropCR(line)) == Trim(line)
  {
    if line != "" && line[|line| - 1] == '\r' {
      TrimDropsLastSpace(line);
    }
  }

  // The length in bytes is that of UTF-8.
  lemma {:induction false} BytesAdd(a: string, b: string)
    ensures Bytes(a + b) == Bytes(a) + Bytes(b)
  {
    if b == "" {
      assert a + b == a;
    } else {
      assert (a + b)[..|a + b| - 1] == a + b[..|b| - 1];
      BytesAdd(a, b[..|b| - 1]);
    }
  }
}
