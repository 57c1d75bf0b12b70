/**
 Search terms as LIKE patterns: the escaper, and the LIKE matcher (section 8.5 of ISO/IEC
 9075:1992), with ESCAPE '\' or without, over any character equality `same`, which for
 SQLite folds the ASCII letters.
 */
module Like {
  type Same = (char, char) -> bool

  // '%' stands for any string and '_' for any character. With `escape`, a backslash makes
  // the character after it stand for itself, and matches nothing at the end of a pattern.
  predicate Matches(pattern: string, text: string, same: Same, escape: bool)
    decreases |pattern| + |text|
  {
    if pattern == "" then text == ""
    else if pattern[0] == '%' then
      Matches(pattern[1..], text, same, escape) || (text != "" && Matches(pattern, text[1..], same, escape))
    else if escape && pattern[0] == '\\' then
      |pattern| > 1 && text != "" && same(pattern[1], text[0]) && Matches(pattern[2..], text[1..], same, escape)
    else
      text != "" && (pattern[0] == '_' || same(pattern[0], text[0])) && Matches(pattern[1..], text[1..], same, escape)
  }

  function Escaped(c: char): string {
    if c == '\\' || c == '%' || c == '_' then ['\\', c] else [c]
  }

  // likeEscaper.Replace.
  function Escape(term: string): string {
    if term == "" then "" else Escaped(term[0]) + Escape(term[1..])
  }

  function Pattern(term: string): string {
    "%" + Escape(term) + "%"
  }

  predicate HasPrefix(text: string, term: string, same: Same) {
    |term| <= |text| && forall i :: 0 <= i < |term| ==> same(term[i], text[i])
  }

  predicate Occurs(text: string, term: string, same: Same) {
    exists at :: 0 <= at <= |text| && HasPrefix(text[at..], term, same)
  }

  lemma {:induction false} PercentMatchesAll(text: string, same: Same, escape: bool)
    ensures Matches("%", text, same, escape)
    decreases |text|
  {
    if text != "" { PercentMatchesAll(text[1..], same, escape); }
  }

  // After the leading '%': the escaped term matches exactly the texts that begin with it.
  lemma {:induction false} EscapedMatchesPrefix(term: string, text: string, same: Same)
    ensures Matches(Escape(term) + "%", text, same, true) <==> HasPrefix(text, term, same)
    decreases |term|
  {
    if term == "" {
      assert Escape(term) + "%" == "%";
      PercentMatchesAll(text, same, true);
    } else {
      var rest := Escape(term[1..]) + "%";
      assert Escape(term) + "%" == Escaped(term[0]) + rest;
      if text != "" {
        EscapedMatchesPrefix(term[1..], text[1..], same);
        PrefixTail(term, text, same);
        assert |Escaped(term[0])| == 1 ==> (Escape(term) + "%")[1..] == rest;
        assert |Escaped(term[0])| == 2 ==> (Escape(term) + "%")[2..] == rest;
      }
    }
  }

  // Without the wildcards around it, the escaped term matches itself alone.
  lemma {:induction false} EscapedMatchesItself(term: string, text: string, same: Same)
    ensures Matches(Escape(term), text, same, true) <==> |text| == |term| && HasPrefix(text, term, same)
    decreases |term|
  {
    if term != "" {
      var rest := Escape(term[1..]);
      assert |Escaped(term[0])| == 1 ==> Escape(term)[1..] == rest;
      assert |Escaped(term[0])| == 2 ==> Escape(term)[2..] == rest;
      if text != "" {
        EscapedMatchesItself(term[1..], text[1..], same);
        PrefixTail(term, text, same);
      }
    }
  }

  // Search escaping is exact: the pattern matches a text if and only if the term occurs in
  // it, whatever wildcards and backslashes the term holds.
  lemma {:induction false} PatternMatchesOccurrences(term: string, text: string, same: Same)
    ensures Matches(Pattern(term), text, same, true) <==> Occurs(text, term, same)
    decreases |text|
  {
    var tail := Escape(term) + "%";
    assert Pattern(term)[1..] == tail && Pattern(term)[0] == '%';
    EscapedMatchesPrefix(term, text, same);
    OccursTail(term, text, same);
    if text != "" { PatternMatchesOccurrences(term, text[1..], same); }
  }

  /// ### Without ESCAPE

  predicate Plain(term: string) {
    forall i :: 0 <= i < |term| ==> term[i] != '%' && term[i] != '_'
  }

  // An unescaped term finds at least the texts that begin with it, and those alone if it
  // holds no wildcard; a backslash is a character like any other.
  lemma {:induction false} RawMatchesPrefix(term: string, text: string, same: Same)
    ensures HasPrefix(text, term, same) ==> Matches(term + "%", text, same, false)
    ensures Plain(term) && Matches(term + "%", text, same, false) ==> HasPrefix(text, term, same)
    decreases |term|
  {
    if term == "" {
      assert term + "%" == "%";
      PercentMatchesAll(text, same, false);
    } else if text != "" {
      var pattern := term + "%";
      assert pattern[1..] == term[1..] + "%" && pattern[0] == term[0];
      RawMatchesPrefix(term[1..], text[1..], same);
      PrefixTail(term, text, same);
      if term[0] == '%' && HasPrefix(text, term, same) {
        SkipsPercent(pattern, text[1..], same);
      }
    }
  }

  lemma SkipsPercent(pattern: string, text: string, same: Same)
    requires pattern != "" && pattern[0] == '%' && Matches(pattern[1..], text, same, false)
    ensures Matches(pattern, text, same, false)
  {
  }

  lemma PrefixTail(term: string, text: string, same: Same)
    requires term != "" && text != ""
    ensures HasPrefix(text, term, same) <==> same(term[0], text[0]) && HasPrefix(text[1..], term[1..], same)
  {
    assert forall i :: 1 <= i < |term| && |term| <= |text| ==>
      term[i] == term[1..][i - 1] && text[i] == text[1..][i - 1];
    if same(term[0], text[0]) && HasPrefix(text[1..], term[1..], same) {
      forall i | 0 <= i < |term| ensures same(term[i], text[i]) {
        if i > 0 { assert same(term[1..][i - 1], text[1..][i - 1]); }
      }
    }
  }

  // The scan misses no occurrence, whatever the term; for a plain term it is exact.
  lemma {:induction false} RawPatternFindsOccurrences(term: string, text: string, same: Same)
    ensures Occurs(text, term, same) ==> Matches("%" + term + "%", text, same, false)
    ensures Plain(term) && Matches("%" + term + "%", text, same, false) ==> Occurs(text, term, same)
    decreases |text|
  {
    var pattern, tail := "%" + term + "%", term + "%";
    assert pattern[1..] == tail && pattern[0] == '%';
    RawMatchesPrefix(term, text, same);
    OccursTail(term, text, same);
    if text != "" { RawPatternFindsOccurrences(term, text[1..], same); }
  }

  lemma OccursTail(term: string, text: string, same: Same)
    ensures Occurs(text, term, same) <==> HasPrefix(text, term, same) || (text != "" && Occurs(text[1..], term, same))
  {
    assert text[0..] == text;
    if text != "" {
      if Occurs(text[1..], term, same) {
        var at :| 0 <= at <= |text[1..]| && HasPrefix(text[1..][at..], term, same);
        assert text[1..][at..] == text[at + 1..];
      }
      if Occurs(text, term, same) && !HasPrefix(text, term, same) {
        var at :| 0 <= at <= |text| && HasPrefix(text[at..], term, same);
        assert text[1..][at - 1..] == text[at..];
      }
    }
  }
}
