/**
 Redirect replacements: Ruby's sub syntax as admins enter it, Go's ExpandString templates,
 and the translation from one to the other.

 A match is `ref`, which gives the text a reference stands for: a digit string names a
 group by number ("0" is the whole match), any other name a named group. `word` is the
 class of characters a template name may hold (letters, digits, underscore).
 */
module Replacement {
  import opened Options

  type Ref = string -> string
  type Class = char -> bool

  predicate WordClass(word: Class) {
    (forall c :: '0' <= c <= '9' ==> word(c)) && !word('}')
  }

  predicate Word(name: string, word: Class) {
    name != "" && forall i :: 0 <= i < |name| ==> word(name[i])
  }

  /// ### Ruby replacements

  datatype Piece = Literal(c: char) | Reference(name: string)

  // The first index of `c`, or the length of `s`.
  function IndexOf(s: string, c: char): (i: nat)
    ensures i <= |s| && (i < |s| ==> s[i] == c) && forall j :: 0 <= j < i ==> s[j] != c
  {
    if s == "" || s[0] == c then 0 else 1 + IndexOf(s[1..], c)
  }

  predicate Digit(c: char) { '0' <= c <= '9' }

  // A replacement that begins with \k<name> or \k'name'; None when the name is empty or
  // not closed.
  function NamedAt(repl: string): (name: Option<string>)
    ensures name.Some? ==> |name.value| > 0 && |name.value| + 4 <= |repl|
  {
    if |repl| > 2 && repl[0] == '\\' && repl[1] == 'k' && (repl[2] == '<' || repl[2] == '\'') then
      var end := IndexOf(repl[3..], if repl[2] == '\'' then '\'' else '>');
      if 0 < end < |repl[3..]| then Some(repl[3..3 + end]) else None
    else
      None
  }

  // One piece from the front of a replacement, and how many characters it takes.
  function FirstPiece(repl: string): (first: (Piece, nat))
    requires repl != ""
    ensures 0 < first.1 <= |repl|
  {
    if repl[0] != '\\' || |repl| == 1 then (Literal(repl[0]), 1)
    else if Digit(repl[1]) then (Reference([repl[1]]), 2)
    else if repl[1] == '&' then (Reference("0"), 2)
    else if repl[1] == '\\' then (Literal('\\'), 2)
    else if NamedAt(repl).Some? then (Reference(NamedAt(repl).value), |NamedAt(repl).value| + 4)
    else (Literal('\\'), 1)
  }

  function Pieces(repl: string): seq<Piece> {
    if repl == "" then [] else
      var first := FirstPiece(repl);
      [first.0] + Pieces(repl[first.1..])
  }

  // What the replacement stands for, given a match.
  function Eval(pieces: seq<Piece>, ref: Ref): string {
    if pieces == [] then ""
    else (if pieces[0].Literal? then [pieces[0].c] else ref(pieces[0].name)) + Eval(pieces[1..], ref)
  }

  predicate WordNames(pieces: seq<Piece>, word: Class) {
    forall i :: 0 <= i < |pieces| && pieces[i].Reference? ==> Word(pieces[i].name, word)
  }

  /// ### Go templates

  // The length of the longest run of word characters at the front.
  function Run(s: string, word: Class): (n: nat)
    ensures n <= |s| && (forall i :: 0 <= i < n ==> word(s[i])) && (n < |s| ==> !word(s[n]))
  {
    if s == "" || !word(s[0]) then 0 else 1 + Run(s[1..], word)
  }

  // The reference behind a '$': its name and the rest of the template.
  function Extract(s: string, word: Class): (found: Option<(string, string)>)
    ensures found.Some? ==> |found.value.1| < |s| && Word(found.value.0, word)
  {
    if s == "" then None
    else if s[0] == '{' then
      var name := s[1..];
      var n := Run(name, word);
      if n == 0 || n >= |name| || name[n] != '}' then None else Some((name[..n], name[n + 1..]))
    else
      var n := Run(s, word);
      if n == 0 then None else Some((s[..n], s[n..]))
  }

  // regexp.Expand: $$ is a dollar, $name and ${name} are references, and a dollar with no
  // well-formed name behind it is itself.
  function Expand(template: string, ref: Ref, word: Class): string
    decreases |template|
  {
    if template == "" then ""
    else if template[0] != '$' then [template[0]] + Expand(template[1..], ref, word)
    else if |template| > 1 && template[1] == '$' then "$" + Expand(template[2..], ref, word)
    else
      var found := Extract(template[1..], word);
      if found.None? then "$" + Expand(template[1..], ref, word)
      else ref(found.value.0) + Expand(found.value.1, ref, word)
  }

  /// ### The translation

  function Emit(piece: Piece): string {
    if piece.Reference? then "${" + piece.name + "}" else if piece.c == '$' then "$$" else [piece.c]
  }

  function Template(pieces: seq<Piece>): string {
    if pieces == [] then "" else Emit(pieces[0]) + Template(pieces[1..])
  }

  function Translated(repl: string): string {
    Template(Pieces(repl))
  }

  lemma Regroup(a: string, b: string, c: string)
    ensures a + (b + c) == a + b + c
  {
  }

  // `template` is the translation of the replacement up to `i`.
  ghost predicate TranslatedTo(repl: string, template: string, i: nat) {
    i <= |repl| && template + Translated(repl[i..]) == Translated(repl)
  }

  lemma NothingTranslated(repl: string)
    ensures TranslatedTo(repl, "", 0)
  {
    assert repl[0..] == repl;
    assert "" + Translated(repl) == Translated(repl);
  }

  lemma TranslatesOn(repl: string, template: string, i: nat, text: string, taken: nat)
    requires TranslatedTo(repl, template, i) && i + taken <= |repl|
    requires Translated(repl[i..]) == text + Translated(repl[i + taken..])
    ensures TranslatedTo(repl, template + text, i + taken)
  {
    Regroup(template, text, Translated(repl[i + taken..]));
  }

  lemma AllTranslated(repl: string, template: string)
    requires TranslatedTo(repl, template, |repl|)
    ensures template == Translated(repl)
  {
    assert repl[|repl|..] == "";
    assert template + "" == template;
  }

  // rubyToGoExpansion: one pass over the replacement.
  method RubyToGoExpansion(repl: string) returns (template: string)
    ensures template == Translated(repl)
  {
    template := "";
    var i := 0;
    NothingTranslated(repl);
    while i < |repl|
      invariant TranslatedTo(repl, template, i)
    {
      var text, taken := TranslateAt(repl, i, template);
      template := template + text;
      i := i + taken;
    }
    AllTranslated(repl, template);
  }

  // The switch of the loop: what is written for the piece at `i`, and how far to move on.
  method TranslateAt(repl: string, i: nat, ghost template: string) returns (text: string, taken: nat)
    requires i < |repl| && TranslatedTo(repl, template, i)
    ensures 0 < taken && TranslatedTo(repl, template + text, i + taken)
  {
    text, taken := TranslateFront(repl, i);
    FrontTranslated(repl, i, text, taken);
    TranslatesOn(repl, template, i, text, taken);
  }

  lemma FrontTranslated(repl: string, i: nat, text: string, taken: nat)
    requires i < |repl| && text == Emit(FirstPiece(repl[i..]).0) && taken == FirstPiece(repl[i..]).1
    ensures i + taken <= |repl| && Translated(repl[i..]) == text + Translated(repl[i + taken..])
  {
    assert repl[i..][taken..] == repl[i + taken..];
    assert Pieces(repl[i..])[1..] == Pieces(repl[i + taken..]);
  }

  // What is written for the front piece itself.
  method TranslateFront(repl: string, i: nat) returns (text: string, taken: nat)
    requires i < |repl|
    ensures text == Emit(FirstPiece(repl[i..]).0) && taken == FirstPiece(repl[i..]).1
    ensures i + taken <= |repl|
  {
    var c := repl[i];
    ghost var here := repl[i..];
    assert here[0] == c && |here| == |repl| - i && (|here| > 1 ==> here[1] == repl[i + 1])
      && (|here| > 2 ==> here[2] == repl[i + 2]);
    if c == '\\' && i + 1 < |repl| && '0' <= repl[i + 1] <= '9' {
      return "${" + [repl[i + 1]] + "}", 2;
    } else if c == '\\' && i + 1 < |repl| && repl[i + 1] == '&' {
      return "${0}", 2;
    } else if c == '\\' && i + 2 < |repl| && repl[i + 1] == 'k' && (repl[i + 2] == '<' || repl[i + 2] == '\'') {
      var close := '>';
      if repl[i + 2] == '\'' { close := '\''; }
      assert here[3..] == repl[i + 3..];
      var end := IndexOf(repl[i + 3..], close);
      if 0 < end < |repl[i + 3..]| {
        assert here[3..3 + end] == repl[i + 3..i + 3 + end];
        return "${" + repl[i + 3..i + 3 + end] + "}", 4 + end;
      }
      return [c], 1;
    } else if c == '\\' && i + 1 < |repl| && repl[i + 1] == '\\' {
      return "\\", 2;
    } else if c == '$' {
      return "$$", 1;
    }
    return [c], 1;
  }

  lemma {:induction false} RunEndsAt(s: string, n: nat, word: Class)
    requires n < |s| && !word(s[n]) && forall i :: 0 <= i < n ==> word(s[i])
    ensures Run(s, word) == n
    decreases n
  {
  }

  // A reference with a word for a name is read back by Go as that reference.
  lemma ReferenceReadsBack(name: string, rest: string, ref: Ref, word: Class)
    requires Word(name, word) && WordClass(word)
    ensures Expand("${" + name + "}" + rest, ref, word) == ref(name) + Expand(rest, ref, word)
  {
    var template := "${" + name + "}" + rest;
    var inner := name + "}" + rest;
    assert template == "$" + ("{" + inner) && template[1..] == "{" + inner && template[1..][1..] == inner;
    assert inner[|name|] == '}';
    RunEndsAt(inner, |name|, word);
    assert inner[..|name|] == name && inner[|name| + 1..] == rest;
  }

  lemma LiteralReadsBack(c: char, rest: string, ref: Ref, word: Class)
    ensures Expand(Emit(Literal(c)) + rest, ref, word) == [c] + Expand(rest, ref, word)
  {
    if c == '$' {
      assert ("$$" + rest)[2..] == rest;
    } else {
      assert ([c] + rest)[1..] == rest;
    }
  }

  // Under every match at all, word names or not among its groups.
  lemma {:induction false} WordNamesTranslate(pieces: seq<Piece>, ref: Ref, word: Class)
    requires WordNames(pieces, word) && WordClass(word)
    ensures Expand(Template(pieces), ref, word) == Eval(pieces, ref)
    decreases |pieces|
  {
    if pieces != [] {
      var piece, rest := pieces[0], Template(pieces[1..]);
      assert WordNames(pieces[1..], word);
      WordNamesTranslate(pieces[1..], ref, word);
      if piece.Reference? {
        ReferenceReadsBack(piece.name, rest, ref, word);
      } else {
        LiteralReadsBack(piece.c, rest, ref, word);
      }
    }
  }

  /// ### Exactly when the translation keeps the meaning

  // The names of a pattern's groups are words; any other name stands for nothing.
  ghost predicate IsMatch(ref: Ref, word: Class) {
    forall name :: !Word(name, word) ==> ref(name) == ""
  }

  ghost predicate KeepsMeaning(repl: string, word: Class) {
    forall ref: Ref | IsMatch(ref, word) :: Expand(Translated(repl), ref, word) == Eval(Pieces(repl), ref)
  }

  // A match in which every group reads "!".
  function Shout(word: Class): Ref {
    name => if Word(name, word) then "!" else ""
  }

  predicate EndsWithBrace(t: string) { t != "" ==> t[|t| - 1] == '}' }

  lemma Drop(t: string, k: nat, rest: string)
    requires k <= |t| && EndsWithBrace(t)
    ensures (t + rest)[k..] == t[k..] + rest && EndsWithBrace(t[k..])
    ensures k < |t| ==> (t + rest)[k] == t[k]
  {
  }

  lemma {:induction false} RunStopsAtBrace(t: string, rest: string, word: Class)
    requires WordClass(word) && t != "" && EndsWithBrace(t)
    ensures Run(t + rest, word) == Run(t, word) < |t|
    decreases |t|
  {
    Drop(t, 0, rest);
    if word(t[0]) {
      Drop(t, 1, rest);
      RunStopsAtBrace(t[1..], rest, word);
    }
  }

  // A reference is read up to a closing brace at the latest.
  lemma BracedStopsAtBrace(t: string, rest: string, word: Class)
    requires WordClass(word) && t != "" && EndsWithBrace(t) && t[0] == '{'
    ensures var near, far := Extract(t, word), Extract(t + rest, word);
      && (near.Some? <==> far.Some?)
      && (near.Some? ==> far.value == (near.value.0, near.value.1 + rest) && EndsWithBrace(near.value.1))
  {
    var name := t[1..];
    Drop(t, 1, rest);
    RunStopsAtBrace(name, rest, word);
    var n := Run(name, word);
    Drop(name, n, rest);
    Drop(name, n + 1, rest);
    assert (name + rest)[..n] == name[..n];
  }

  lemma BareStopsAtBrace(t: string, rest: string, word: Class)
    requires WordClass(word) && t != "" && EndsWithBrace(t) && t[0] != '{'
    ensures var near, far := Extract(t, word), Extract(t + rest, word);
      && (near.Some? <==> far.Some?)
      && (near.Some? ==> far.value == (near.value.0, near.value.1 + rest) && EndsWithBrace(near.value.1))
  {
    RunStopsAtBrace(t, rest, word);
    var n := Run(t, word);
    Drop(t, n, rest);
    assert (t + rest)[..n] == t[..n];
  }

  // So what stands behind the brace is expanded on its own.
  lemma {:induction false} ExpandSplitsAtBrace(t: string, rest: string, ref: Ref, word: Class)
    requires WordClass(word) && EndsWithBrace(t)
    ensures Expand(t + rest, ref, word) == Expand(t, ref, word) + Expand(rest, ref, word)
    decreases |t|
  {
    Drop(t, 0, rest);
    if t == "" {
      assert t + rest == rest;
    } else if t[0] != '$' {
      Drop(t, 1, rest);
      ExpandSplitsAtBrace(t[1..], rest, ref, word);
    } else if t[1] == '$' {
      Drop(t, 1, rest);
      Drop(t, 2, rest);
      ExpandSplitsAtBrace(t[2..], rest, ref, word);
    } else {
      DollarSplitsAtBrace(t, rest, ref, word);
    }
  }

  function AfterDollar(found: Option<(string, string)>, tail: string, ref: Ref, word: Class): string {
    if found.None? then "$" + Expand(tail, ref, word) else ref(found.value.0) + Expand(found.value.1, ref, word)
  }

  lemma ExpandAtDollar(t: string, ref: Ref, word: Class)
    requires |t| > 1 && t[0] == '$' && t[1] != '$'
    ensures Expand(t, ref, word) == AfterDollar(Extract(t[1..], word), t[1..], ref, word)
  {
  }

  lemma {:induction false} DollarSplitsAtBrace(t: string, rest: string, ref: Ref, word: Class)
    requires WordClass(word) && EndsWithBrace(t) && |t| > 1 && t[0] == '$' && t[1] != '$'
    ensures Expand(t + rest, ref, word) == Expand(t, ref, word) + Expand(rest, ref, word)
    decreases |t|, 0
  {
    var tail := t[1..];
    Drop(t, 0, rest);
    Drop(t, 1, rest);
    if t[1] == '{' { BracedStopsAtBrace(tail, rest, word); } else { BareStopsAtBrace(tail, rest, word); }
    ExpandAtDollar(t, ref, word);
    ExpandAtDollar(t + rest, ref, word);
    var found := Extract(tail, word);
    var left := if found.None? then tail else found.value.1;
    ExpandSplitsAtBrace(left, rest, ref, word);
    Regroup(if found.None? then "$" else ref(found.value.0), Expand(left, ref, word), Expand(rest, ref, word));
  }

  // Go never expands a template to nothing where every group reads "!".
  lemma {:induction false} ShoutIsHeard(template: string, word: Class)
    requires template != ""
    ensures Expand(template, Shout(word), word) != ""
  {
    if template[0] == '$' && !(|template| > 1 && template[1] == '$') {
      var found := Extract(template[1..], word);
      if found.Some? { assert Shout(word)(found.value.0) == "!"; }
    }
  }

  lemma {:induction false} NonWordsAreSeen(pieces: seq<Piece>, word: Class)
    requires WordClass(word)
    ensures |Expand(Template(pieces), Shout(word), word)| >= |Eval(pieces, Shout(word))|
    ensures !WordNames(pieces, word) ==> |Expand(Template(pieces), Shout(word), word)| > |Eval(pieces, Shout(word))|
    decreases |pieces|
  {
    if pieces != [] {
      var piece, rest := pieces[0], Template(pieces[1..]);
      NonWordsAreSeen(pieces[1..], word);
      NonWordNames(pieces, word);
      if piece.Literal? {
        LiteralReadsBack(piece.c, rest, Shout(word), word);
      } else if Word(piece.name, word) {
        ReferenceReadsBack(piece.name, rest, Shout(word), word);
      } else {
        ExpandSplitsAtBrace("${" + piece.name + "}", rest, Shout(word), word);
        ShoutIsHeard("${" + piece.name + "}", word);
      }
    }
  }

  lemma NonWordNames(pieces: seq<Piece>, word: Class)
    requires pieces != []
    ensures WordNames(pieces, word) <==>
      (pieces[0].Reference? ==> Word(pieces[0].name, word)) && WordNames(pieces[1..], word)
  {
    if !WordNames(pieces, word) && (pieces[0].Reference? ==> Word(pieces[0].name, word)) {
      var i :| 0 <= i < |pieces| && pieces[i].Reference? && !Word(pieces[i].name, word);
      assert pieces[1..][i - 1] == pieces[i];
    }
  }

  // The translated replacement means the same under every match if and only if each name
  // in a \k reference is made of word characters. Otherwise Go prints some of the reference
  // as text, where the Ruby meaning is empty.
  lemma TranslationKeepsMeaning(repl: string, word: Class)
    requires WordClass(word)
    ensures KeepsMeaning(repl, word) <==> WordNames(Pieces(repl), word)
  {
    var pieces := Pieces(repl);
    if WordNames(pieces, word) {
      forall ref: Ref ensures Expand(Template(pieces), ref, word) == Eval(pieces, ref) {
        WordNamesTranslate(pieces, ref, word);
      }
    } else {
      NonWordsAreSeen(pieces, word);
      assert IsMatch(Shout(word), word);
      assert Expand(Translated(repl), Shout(word), word) != Eval(pieces, Shout(word));
    }
  }
}
