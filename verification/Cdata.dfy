/**
 CDATA sections of the feeds: the writer that splits "]]>", and the reader of section 2.7
 of XML 1.0, where a section ends at its first "]]>".

 The delimiters are parameters of the functions, so that the proofs see a string only
 where they need its characters.
 */
module Cdata {
  import opened Options

  const OPEN := "<![CDATA["
  const CLOSE := "]]>"
  const SPLIT := "]]]]><![CDATA[>"

  // "]]>" starts at position `i`.
  predicate Closes(text: string, i: int) {
    0 <= i && i + 3 <= |text| && text[i] == ']' && text[i + 1] == ']' && text[i + 2] == '>'
  }

  // strings.ReplaceAll(value, "]]>", split): leftmost occurrences, not overlapping.
  function Split(value: string, split: string): string {
    if value == "" then ""
    else if Closes(value, 0) then split + Split(value[3..], split)
    else [value[0]] + Split(value[1..], split)
  }

  function Section(value: string): string {
    OPEN + Split(value, SPLIT) + CLOSE
  }

  // The position of the first "]]>" at or after `from`, or the length of the text.
  function Find(text: string, from: nat): (i: nat)
    requires from <= |text|
    ensures from <= i <= |text|
    ensures i < |text| ==> Closes(text, i)
    ensures forall j :: from <= j < i ==> !Closes(text, j)
    decreases |text| - from
  {
    if from == |text| || Closes(text, from) then from else Find(text, from + 1)
  }

  // Reads consecutive sections that fill the whole text and joins their contents.
  function Read(text: string, open: string): Option<string>
    decreases |text|, 1
  {
    if text == "" then Some("")
    else if !(open <= text) then None
    else ReadRest(text[|open|..], open)
  }

  // The same, behind the opening of a section.
  function ReadRest(text: string, open: string): Option<string>
    decreases |text|, 0
  {
    var end := Find(text, 0);
    if end == |text| then None
    else
      var rest := Read(text[end + 3..], open);
      if rest.None? then None else Some(text[..end] + rest.value)
  }

  // No "]]>" of the whole value starts inside the part that is already written out.
  ghost predicate NoneStartsIn(done: string, value: string) {
    forall j :: 0 <= j < |done| ==> !Closes(done + value, j)
  }

  // Before the end of a section whose content is `done` and maybe "]]", no "]]>" starts:
  // a '>' there would have "]]" in front of it inside `done`.
  lemma FindsTheEnd(done: string, brackets: string, value: string, close: string, rest: string)
    requires NoneStartsIn(done, value) && Closes(close, 0) && |close| == 3
    requires forall i :: 0 <= i < |brackets| ==> brackets[i] == ']'
    ensures Find(done + brackets + (close + rest), 0) == |done + brackets|
  {
    var text := done + brackets + (close + rest);
    var end := |done + brackets|;
    assert text[end..] == close + rest;
    forall j | 0 <= j < end ensures !Closes(text, j) {
      if j + 2 < |done| {
        assert !Closes(done + value, j);
        assert text[j] == (done + value)[j] && text[j + 1] == (done + value)[j + 1]
          && text[j + 2] == (done + value)[j + 2];
      } else if j + 2 < end {
        assert text[j + 2] == brackets[j + 2 - |done|];
      } else {
        assert text[j + 2] == close[j + 2 - end];
      }
    }
    assert Closes(text, end);
  }

  // Reading a section once the end of its content is found.
  lemma ReadsOne(content: string, close: string, rest: string, open: string)
    requires Find(content + (close + rest), 0) == |content| && |close| == 3
    requires Read(rest, open).Some?
    ensures ReadRest(content + (close + rest), open) == Some(content + Read(rest, open).value)
  {
    var text := content + (close + rest);
    BehindTheEnd(content, close, rest);
    var end := Find(text, 0);
    assert end < |text|;
    assert ReadRest(text, open) == Some(text[..end] + Read(text[end + 3..], open).value);
  }

  lemma BehindTheEnd(content: string, close: string, rest: string)
    requires |close| == 3
    ensures (content + (close + rest))[..|content|] == content
    ensures (content + (close + rest))[|content| + 3..] == rest
  {
  }

  predicate Delimiters(open: string, close: string, split: string) {
    |open| > 0 && |close| == 3 && Closes(close, 0) && split == "]]" + (close + (open + ">"))
  }

  lemma {:induction false} ReadsFrom(done: string, value: string, open: string, close: string, split: string)
    requires NoneStartsIn(done, value) && Delimiters(open, close, split)
    ensures ReadRest(done + Split(value, split) + close, open) == Some(done + value)
    decreases |value|
  {
    if value == "" {
      FindsTheEnd(done, "", value, close, "");
      assert done + "" == done && close + "" == close && done + value == done;
      ReadsOne(done, close, "", open);
    } else if Closes(value, 0) {
      ReadsAcross(done, value, open, close, split);
    } else {
      var more := done + [value[0]];
      assert more + value[1..] == done + value;
      forall j | 0 <= j < |more| ensures !Closes(more + value[1..], j) {
        if j == |done| { assert (done + value)[j..] == value; }
      }
      ReadsFrom(more, value[1..], open, close, split);
      assert done + Split(value, split) + close == more + Split(value[1..], split) + close;
    }
  }

  // A forbidden sequence: this section ends with "]]", the next one begins with ">".
  lemma {:induction false} ReadsAcross(done: string, value: string, open: string, close: string, split: string)
    requires NoneStartsIn(done, value) && Closes(value, 0) && Delimiters(open, close, split)
    ensures ReadRest(done + Split(value, split) + close, open) == Some(done + value)
    decreases |value|, 0
  {
    var later := value[3..];
    ReadsFrom(">", later, open, close, split);
    var next := ">" + Split(later, split) + close;
    assert (open + next)[|open|..] == next;
    FindsTheEnd(done, "]]", value, close, open + next);
    ReadsOne(done + "]]", close, open + next, open);
    Regrouped(done, "]]", close, open, ">", Split(later, split));
    assert value == "]]" + (">" + later);
    Reassociate(done, "]]", ">" + later);
  }

  lemma Regrouped(a: string, b: string, close: string, open: string, c: string, d: string)
    ensures a + ((b + (close + (open + c))) + d) + close == a + b + (close + (open + (c + d + close)))
  {
  }

  lemma Reassociate(a: string, b: string, c: string)
    ensures a + b + c == a + (b + c)
  {
  }

  lemma SectionReadsBack(value: string, open: string, close: string, split: string)
    requires Delimiters(open, close, split)
    ensures Read(open + Split(value, split) + close, open) == Some(value)
  {
    ReadsFrom("", value, open, close, split);
    var body := "" + Split(value, split) + close;
    assert "" + value == value;
    Reassociate(open, Split(value, split), close);
    assert body == Split(value, split) + close;
    assert (open + body)[|open|..] == body;
  }

  lemma StandardDelimiters()
    ensures Delimiters(OPEN, CLOSE, SPLIT)
  {
  }

  // The round trip, for every string.
  lemma SectionsReadBack(value: string)
    ensures Read(Section(value), OPEN) == Some(value)
  {
    StandardDelimiters();
    SectionReadsBack(value, OPEN, CLOSE, SPLIT);
  }

  class Buffer {
    var text: string

    constructor ()
      ensures text == ""
    {
      text := "";
    }

    method WriteString(s: string)
      modifies this
      ensures text == old(text) + s
    {
      text := text + s;
    }
  }

  lemma SplitStep(value: string, i: nat, split: string)
    requires i < |value|
    ensures Closes(value, i) ==> Split(value[i..], split) == split + Split(value[i + 3..], split)
    ensures !Closes(value, i) ==> Split(value[i..], split) == [value[i]] + Split(value[i + 1..], split)
  {
  }

  // One pass from the left, copying up to each "]]>".
  method ReplaceAll(value: string, split: string) returns (replaced: string)
    ensures replaced == Split(value, split)
  {
    replaced := "";
    var i := 0;
    assert value[0..] == value;
    while i < |value|
      invariant 0 <= i <= |value|
      invariant replaced + Split(value[i..], split) == Split(value, split)
    {
      SplitStep(value, i, split);
      var text, taken := [value[i]], 1;
      if Closes(value, i) { text, taken := split, 3; }
      Reassociate(replaced, text, Split(value[i + taken..], split));
      replaced := replaced + text;
      i := i + taken;
    }
    assert value[i..] == "";
  }

  // The element holds sections that read back as the value.
  method WriteXmlCdata(b: Buffer, name: string, value: string) returns (ghost content: string)
    modifies b
    ensures b.text == old(b.text) + ("<" + name + ">" + content + "</" + name + ">\n")
    ensures Read(content, OPEN) == Some(value)
  {
    var split := ReplaceAll(value, SPLIT);
    b.WriteString("<" + name + ">");
    b.WriteString(OPEN);
    b.WriteString(split);
    b.WriteString(CLOSE);
    b.WriteString("</" + name + ">\n");
    SectionsReadBack(value);
    content := Section(value);
    Regroup(old(b.text), "<" + name + ">", OPEN, split, CLOSE, "</" + name + ">\n");
    assert content == OPEN + split + CLOSE;
    assert "<" + name + ">" + content + "</" + name + ">\n" == "<" + name + ">" + content + ("</" + name + ">\n");
  }

  lemma Regroup(a: string, b: string, c: string, d: string, e: string, f: string)
    ensures a + b + c + d + e + f == a + (b + (c + d + e) + f)
  {
  }
}
