/**
 * Line cleaning of `create_db_entity`: `line.trim().trim_end_matches(',')`.
 * One line of a Wikidata dump is one element of a JSON array: `[`, `]` or an
 * object followed by a comma.
 */
module Clean {

  /** Rust's `char::is_whitespace`: the Unicode White_Space property. */
  predicate IsWhitespace(c: char)
  {
    c == ' ' || ('\t' <= c <= '\r') || c == '\U{0085}' || c == '\U{00A0}' || c == '\U{1680}'
    || ('\U{2000}' <= c <= '\U{200A}') || c == '\U{2028}' || c == '\U{2029}'
    || c == '\U{202F}' || c == '\U{205F}' || c == '\U{3000}'
  }

  /** Every character of `s` is whitespace. */
  predicate Blank(s: string)
  {
    forall k :: 0 <= k < |s| ==> IsWhitespace(s[k])
  }

  /** `trim_start`: drops the longest whitespace prefix. */
  function TrimStart(s: string): string
    decreases |s|
  {
    if s != [] && IsWhitespace(s[0]) then TrimStart(s[1..]) else s
  }

  /** `trim_end`: drops the longest whitespace suffix. */
  function TrimEnd(s: string): string
    decreases |s|
  {
    if s != [] && IsWhitespace(s[|s| - 1]) then TrimEnd(s[..|s| - 1]) else s
  }

  /** `trim_end_matches(c)`: drops every trailing `c`, not just one. */
  function TrimEndMatches(s: string, c: char): string
    decreases |s|
  {
    if s != [] && s[|s| - 1] == c then TrimEndMatches(s[..|s| - 1], c) else s
  }

  /** `line.trim().trim_end_matches(',')`. */
  function CleanLine(line: string): string
  {
    TrimEndMatches(TrimEnd(TrimStart(line)), ',')
  }

  /** `TrimStart` keeps a suffix, drops only whitespace, and stops at the first other character. */
  lemma {:induction false} TrimStartFacts(s: string)
    ensures var r := TrimStart(s);
      |r| <= |s| && r == s[|s| - |r|..] && Blank(s[..|s| - |r|]) && (r == [] || !IsWhitespace(r[0]))
    decreases |s|
  {
    if s != [] && IsWhitespace(s[0]) {
      TrimStartFacts(s[1..]);
      var r := TrimStart(s);
      assert s[..|s| - |r|] == [s[0]] + s[1..][..|s| - 1 - |r|];
    }
  }

  /** `TrimEnd` keeps a prefix, drops only whitespace, and stops at the last other character. */
  lemma {:induction false} TrimEndFacts(s: string)
    ensures var r := TrimEnd(s);
      |r| <= |s| && r == s[..|r|] && Blank(s[|r|..]) && (r == [] || !IsWhitespace(r[|r| - 1]))
    decreases |s|
  {
    if s != [] && IsWhitespace(s[|s| - 1]) {
      var init := s[..|s| - 1];
      TrimEndFacts(init);
      var r := TrimEnd(s);
      assert s[|r|..] == init[|r|..] + [s[|s| - 1]];
    }
  }

  /** `TrimEndMatches` keeps a prefix, drops only `c`, and leaves no trailing `c`. */
  lemma {:induction false} TrimEndMatchesFacts(s: string, c: char)
    ensures var r := TrimEndMatches(s, c);
      |r| <= |s| && r == s[..|r|] && (forall k :: |r| <= k < |s| ==> s[k] == c) && (r == [] || r[|r| - 1] != c)
    decreases |s|
  {
    if s != [] && s[|s| - 1] == c {
      TrimEndMatchesFacts(s[..|s| - 1], c);
    }
  }

  /**
   * The cleaned line is a piece of the input that never ends in a comma and never
   * starts with whitespace (it may end in whitespace that stood before the commas).
   */
  lemma CleanLineFacts(line: string)
    ensures var r := CleanLine(line);
      |r| <= |line| && (r == [] || r[|r| - 1] != ',') && (r == [] || !IsWhitespace(r[0]))
  {
    var start := TrimStart(line);
    TrimStartFacts(line);
    var trimmed := TrimEnd(start);
    TrimEndFacts(start);
    TrimEndMatchesFacts(trimmed, ',');
    var r := TrimEndMatches(trimmed, ',');
    assert r == [] || r[0] == trimmed[0] == start[0];
  }

  lemma {:induction false} TrimStartSkips(ws: string, rest: string)
    requires Blank(ws)
    requires rest == [] || !IsWhitespace(rest[0])
    ensures TrimStart(ws + rest) == rest
    decreases |ws|
  {
    if ws == [] {
      assert ws + rest == rest;
    } else {
      assert (ws + rest)[0] == ws[0];
      assert (ws + rest)[1..] == ws[1..] + rest;
      TrimStartSkips(ws[1..], rest);
    }
  }

  lemma {:induction false} TrimEndSkips(rest: string, ws: string)
    requires Blank(ws)
    requires rest == [] || !IsWhitespace(rest[|rest| - 1])
    ensures TrimEnd(rest + ws) == rest
    decreases |ws|
  {
    if ws == [] {
      assert rest + ws == rest;
    } else {
      var n := |rest + ws|;
      assert (rest + ws)[n - 1] == ws[|ws| - 1];
      assert (rest + ws)[..n - 1] == rest + ws[..|ws| - 1];
      TrimEndSkips(rest, ws[..|ws| - 1]);
    }
  }

  /**
   * An array element written as `<element>,` with surrounding whitespace is
   * cleaned back to the element itself.
   */
  lemma CleanLineOfElement(element: string, before: string, after: string)
    requires element != [] && !IsWhitespace(element[0])
    requires !IsWhitespace(element[|element| - 1]) && element[|element| - 1] != ','
    requires Blank(before) && Blank(after)
    ensures CleanLine(before + element + "," + after) == element
  {
    var core := element + ",";
    var line := before + element + "," + after;
    assert line == before + (core + after);
    TrimStartSkips(before, core + after);
    assert TrimStart(line) == core + after;
    assert core[|core| - 1] == ',';
    TrimEndSkips(core, after);
    assert TrimEnd(TrimStart(line)) == core;
    assert core[..|core| - 1] == element;
    assert TrimEndMatches(core, ',') == TrimEndMatches(element, ',');
  }
}
