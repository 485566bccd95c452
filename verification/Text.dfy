/**
 Trimming of white space, as strings.TrimSpace does it.
 */
module Text {
  predicate IsSpace(c: char) {
    || c in "\t\n \r" || c == '\U{0B}' || c == '\U{0C}' || c == '\U{85}' || c == '\U{A0}'
    || c == '\U{1680}' || '\U{2000}' <= c <= '\U{200A}' || c == '\U{2028}' || c == '\U{2029}'
    || c == '\U{202F}' || c == '\U{205F}' || c == '\U{3000}'
  }

  function TrimLeft(s: string): string {
    if s != "" && IsSpace(s[0]) then TrimLeft(s[1..]) else s
  }

  function TrimRight(s: string): string {
    if s != "" && IsSpace(s[|s| - 1]) then TrimRight(s[..|s| - 1]) else s
  }

  function Trim(s: string): string {
    TrimRight(TrimLeft(s))
  }

  predicate Trimmed(s: string) {
    s != "" ==> !IsSpace(s[0]) && !IsSpace(s[|s| - 1])
  }

  lemma {:induction false} TrimLeftBares(s: string)
    ensures var t := TrimLeft(s); t != "" ==> !IsSpace(t[0])
    ensures forall c :: c in TrimLeft(s) ==> c in s
  {
    if s != "" && IsSpace(s[0]) {
      TrimLeftBares(s[1..]);
    }
  }

  lemma {:induction false} TrimRightBares(s: string)
    requires s != "" ==> !IsSpace(s[0])
    ensures Trimmed(TrimRight(s))
    ensures forall c :: c in TrimRight(s) ==> c in s
  {
    if s != "" && IsSpace(s[|s| - 1]) {
      if |s| > 1 {
        TrimRightBares(s[..|s| - 1]);
      }
    }
  }

  // What Trim leaves begins and ends without a space and has no other characters.
  lemma TrimBares(s: string)
    ensures Trimmed(Trim(s)) && forall c :: c in Trim(s) ==> c in s
  {
    TrimLeftBares(s);
    TrimRightBares(TrimLeft(s));
  }

  // White space is what the Unicode property White_Space says, by code point.
  lemma SpacesExactly(c: char)
    ensures IsSpace(c) <==>
            var n := c as int;
            || 9 <= n <= 13 || n == 32 || n == 133 || n == 160 || n == 5760
            || 8192 <= n <= 8202 || n == 8232 || n == 8233 || n == 8239 || n == 8287 || n == 12288
  {
  }

  predicate Blank(s: string) {
    forall c :: c in s ==> IsSpace(c)
  }

  lemma {:induction false} TrimLeftCuts(s: string) returns (before: string)
    ensures Blank(before) && s == before + TrimLeft(s)
  {
    before := "";
    if s != "" && IsSpace(s[0]) {
      before := TrimLeftCuts(s[1..]);
      assert s == [s[0]] + s[1..];
      before := [s[0]] + before;
    }
  }

  lemma {:induction false} TrimRightCuts(s: string) returns (after: string)
    ensures Blank(after) && s == TrimRight(s) + after
  {
    after := "";
    if s != "" && IsSpace(s[|s| - 1]) {
      after := TrimRightCuts(s[..|s| - 1]);
      assert s == s[..|s| - 1] + [s[|s| - 1]];
      after := after + [s[|s| - 1]];
    }
  }

  // Trimming cuts off white space at both ends and nothing else.
  lemma TrimCutsOnlySpace(s: string) returns (before: string, after: string)
    ensures Blank(before) && Blank(after) && s == before + Trim(s) + after
    ensures Trimmed(Trim(s))
  {
    before := TrimLeftCuts(s);
    after := TrimRightCuts(TrimLeft(s));
    TrimBares(s);
    assert before + (Trim(s) + after) == before + Trim(s) + after;
  }

  // A space at the end makes no difference.
  lemma {:induction false} TrimDropsLastSpace(s: string)
    requires s != "" && IsSpace(s[|s| - 1])
    ensures Trim(s[..|s| - 1]) == Trim(s)
  {
    var front := s[..|s| - 1];
    if |s| == 1 {
      assert TrimLeft(s) == "";
    } else if IsSpace(s[0]) {
      assert front[1..] == s[1..][..|s| - 2];
      TrimDropsLastSpace(s[1..]);
      assert TrimLeft(front) == TrimLeft(front[1..]) && TrimLeft(s) == TrimLeft(s[1..]);
    } else {
      assert TrimLeft(s) == s && TrimLeft(front) == front;
    }
  }
}
