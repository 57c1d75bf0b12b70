/**
 The replacement syntax of `Replacement`, form by form: what each way to begin a replacement
 stands for, as Ruby reads it and as Go expands its translation.
 */
module ReplacementForms {
  import opened Options
  import opened Replacement

  function Ruby(repl: string, ref: Ref): string { Eval(Pieces(repl), ref) }

  function Go(repl: string, ref: Ref, word: Class): string { Expand(Translated(repl), ref, word) }

  lemma FrontReads(front: string, rest: string, piece: Piece, ref: Ref, word: Class)
    requires WordClass(word) && front != "" && FirstPiece(front + rest) == (piece, |front|)
    ensures
      var text := if piece.Literal? then [piece.c] else ref(piece.name);
      && Ruby(front + rest, ref) == text + Ruby(rest, ref)
      && ((piece.Reference? ==> Word(piece.name, word)) ==>
            Go(front + rest, ref, word) == text + Go(rest, ref, word))
  {
    assert (front + rest)[|front|..] == rest;
    assert Pieces(front + rest) == [piece] + Pieces(rest);
    assert Translated(front + rest) == Emit(piece) + Translated(rest);
    if piece.Literal? {
      LiteralReadsBack(piece.c, Translated(rest), ref, word);
    } else if Word(piece.name, word) {
      ReferenceReadsBack(piece.name, Translated(rest), ref, word);
    }
  }

  lemma NothingReads(ref: Ref, word: Class)
    ensures Ruby("", ref) == "" && Go("", ref, word) == ""
  {
  }

  // \& is the whole match.
  lemma WholeMatchReads(rest: string, ref: Ref, word: Class)
    requires WordClass(word)
    ensures Ruby("\\&" + rest, ref) == ref("0") + Ruby(rest, ref)
    ensures Go("\\&" + rest, ref, word) == ref("0") + Go(rest, ref, word)
  {
    FrontReads("\\&", rest, Reference("0"), ref, word);
  }

  // \0 to \9 are the match and its numbered groups.
  lemma NumberReads(digit: char, rest: string, ref: Ref, word: Class)
    requires WordClass(word) && '0' <= digit <= '9'
    ensures Ruby(['\\', digit] + rest, ref) == ref([digit]) + Ruby(rest, ref)
    ensures Go(['\\', digit] + rest, ref, word) == ref([digit]) + Go(rest, ref, word)
  {
    FrontReads(['\\', digit], rest, Reference([digit]), ref, word);
  }

  // \k<name> and \k'name' are named groups; Go agrees where the name is a word.
  lemma NameReads(name: string, quoted: bool, rest: string, ref: Ref, word: Class)
    requires WordClass(word) && name != "" && (if quoted then '\'' else '>') !in name
    ensures
      var front := if quoted then "\\k'" + name + "'" else "\\k<" + name + ">";
      && Ruby(front + rest, ref) == ref(name) + Ruby(rest, ref)
      && (Word(name, word) ==> Go(front + rest, ref, word) == ref(name) + Go(rest, ref, word))
  {
    var front := if quoted then "\\k'" + name + "'" else "\\k<" + name + ">";
    var repl := front + rest;
    var tail := name + [if quoted then '\'' else '>'] + rest;
    assert repl[3..] == tail;
    assert tail[|name|] == if quoted then '\'' else '>';
    assert IndexOf(tail, if quoted then '\'' else '>') == |name|;
    assert repl[3..3 + |name|] == name;
    assert NamedAt(repl) == Some(name);
    FrontReads(front, rest, Reference(name), ref, word);
  }

  // \\ is one backslash.
  lemma DoubleBackslashReads(rest: string, ref: Ref, word: Class)
    requires WordClass(word)
    ensures Ruby("\\\\" + rest, ref) == "\\" + Ruby(rest, ref)
    ensures Go("\\\\" + rest, ref, word) == "\\" + Go(rest, ref, word)
  {
    FrontReads("\\\\", rest, Literal('\\'), ref, word);
  }

  // Any other backslash stands for itself: at the end, before another character, and before a
  // \k whose name is empty or never closed.
  lemma LoneBackslashReads(rest: string, ref: Ref, word: Class)
    requires WordClass(word)
    requires rest != "" ==> !('0' <= rest[0] <= '9') && rest[0] != '&' && rest[0] != '\\'
    requires |rest| > 1 && rest[0] == 'k' && rest[1] == '<' ==> '>' !in rest[2..] || rest[2] == '>'
    requires |rest| > 1 && rest[0] == 'k' && rest[1] == '\'' ==> '\'' !in rest[2..] || rest[2] == '\''
    ensures Ruby("\\" + rest, ref) == "\\" + Ruby(rest, ref)
    ensures Go("\\" + rest, ref, word) == "\\" + Go(rest, ref, word)
  {
    var repl := "\\" + rest;
    if |rest| > 1 { assert repl[3..] == rest[2..]; }
    assert NamedAt(repl).None?;
    FrontReads("\\", rest, Literal('\\'), ref, word);
  }

  // Every other character stands for itself, a dollar too.
  lemma CharacterReads(c: char, rest: string, ref: Ref, word: Class)
    requires WordClass(word) && c != '\\'
    ensures Ruby([c] + rest, ref) == [c] + Ruby(rest, ref)
    ensures Go([c] + rest, ref, word) == [c] + Go(rest, ref, word)
  {
    FrontReads([c], rest, Literal(c), ref, word);
  }

  /// ### Go's own templates

  // $name takes the longest run of word characters; $ before anything else but a second
  // dollar and a well-formed brace is a dollar.
  lemma BareNameExpands(name: string, rest: string, ref: Ref, word: Class)
    requires Word(name, word) && name[0] != '{' && name[0] != '$' && (rest != "" ==> !word(rest[0]))
    ensures Expand("$" + name + rest, ref, word) == ref(name) + Expand(rest, ref, word)
  {
    var template := "$" + name + rest;
    var inner := name + rest;
    assert template[1..] == inner;
    RunIsName(name, rest, word);
    assert inner[..|name|] == name && inner[|name|..] == rest;
  }

  lemma DollarExpands(rest: string, ref: Ref, word: Class)
    ensures Expand("$$" + rest, ref, word) == "$" + Expand(rest, ref, word)
    ensures rest != "" && rest[0] != '$' && rest[0] != '{' && !word(rest[0]) ==>
      Expand("$" + rest, ref, word) == "$" + Expand(rest, ref, word)
  {
    assert ("$$" + rest)[2..] == rest && ("$" + rest)[1..] == rest;
  }

  lemma OpenBraceExpands(name: string, rest: string, ref: Ref, word: Class)
    requires (name != "" ==> Word(name, word)) && (rest != "" ==> !word(rest[0]))
    requires name == "" || rest == "" || rest[0] != '}'
    ensures Expand("${" + (name + rest), ref, word) == "$" + Expand("{" + (name + rest), ref, word)
  {
    var inner := name + rest;
    RunIsName(name, rest, word);
    assert ("{" + inner)[1..] == inner;
    assert Extract("{" + inner, word).None?;
    assert ("${" + inner)[1..] == "{" + inner;
  }

  lemma RunIsName(name: string, rest: string, word: Class)
    requires (name != "" ==> Word(name, word)) && (rest != "" ==> !word(rest[0]))
    ensures Run(name + rest, word) == |name|
  {
    if rest != "" { RunEndsAt(name + rest, |name|, word); }
  }
}
