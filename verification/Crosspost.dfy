/**
 Fitting an article into a platform's character limit, with a link back to it.

 A character counts 1, or 2 where the platform counts characters outside ASCII double; there
 a URL counts 23 whatever its length, so that the whole link text counts 34. The address of
 the post is a parameter. Text is a sequence of code points.
 */
module Crosspost {
  import opened Options

  datatype Article = Article(title: string, plainText: string, description: string, sourceUrl: string)

  datatype Settings = Settings(maxLength: int, alwaysAddLink: bool, double: bool)

  // What is posted, in order: the body, the label of the link with its URL, the source.
  datatype Post = Post(body: string, caption: string, link: Option<string>, source: string)
  {
    function Text(): string {
      body + caption + (if link.Some? then link.value else "") + source
    }

    function Size(double: bool): nat {
      CharCount(body, double) + CharCount(caption, double)
      + (if link.None? then 0 else if double then 23 else |link.value|) + CharCount(source, double)
    }
  }

  predicate IsSpace(c: char) {
    || '\t' <= c <= '\r' || c == ' ' || c == '\U{85}' || c == '\U{A0}' || c == '\U{1680}'
    || '\U{2000}' <= c <= '\U{200A}'
    || c == '\U{2028}' || c == '\U{2029}' || c == '\U{202F}' || c == '\U{205F}' || c == '\U{3000}'
  }

  predicate IsBlank(s: string) { forall i :: 0 <= i < |s| ==> IsSpace(s[i]) }

  /// ### Counting and truncating

  function Weight(c: char, double: bool): nat {
    if double && c >= '\U{80}' then 2 else 1
  }

  function CharCount(s: string, double: bool): nat {
    if s == "" then 0 else CharCount(s[..|s| - 1], double) + Weight(s[|s| - 1], double)
  }

  lemma CountPrefix(s: string, i: nat, double: bool)
    requires i < |s|
    ensures CharCount(s[..i + 1], double) == CharCount(s[..i], double) + Weight(s[i], double)
  {
    assert s[..i + 1][..i] == s[..i];
  }

  lemma {:induction false} CountAppend(s: string, t: string, double: bool)
    ensures CharCount(s + t, double) == CharCount(s, double) + CharCount(t, double)
  {
    if t == "" {
      assert s + t == s;
    } else {
      CountAppend(s, t[..|t| - 1], double);
      assert (s + t)[..|s + t| - 1] == s + t[..|t| - 1];
    }
  }

  lemma {:induction false} PlainCount(s: string)
    ensures CharCount(s, false) == |s|
  {
    if s != "" { PlainCount(s[..|s| - 1]); }
  }

  // Double counting adds one for each character outside ASCII.
  lemma {:induction false} DoubleCount(s: string)
    ensures CharCount(s, true) == |s| + |set i | 0 <= i < |s| && s[i] as int > 127|
  {
    if s != "" {
      var front := s[..|s| - 1];
      DoubleCount(front);
      var before, all := set i | 0 <= i < |front| && front[i] as int > 127, set i | 0 <= i < |s| && s[i] as int > 127;
      assert all == before + if s[|s| - 1] as int > 127 then {|s| - 1} else {};
    }
  }

  method CountChars(s: string, double: bool) returns (n: nat)
    ensures n == CharCount(s, double)
  {
    if !double {
      PlainCount(s);
      return |s|;
    }
    n := 0;
    for i := 0 to |s|
      invariant n == CharCount(s[..i], true)
    {
      CountPrefix(s, i, true);
      n := if s[i] < '\U{80}' then n + 1 else n + 2;
    }
    assert s[..|s|] == s;
  }

  // How many characters of s fit.
  function Cut(s: string, limit: int, double: bool): (k: nat)
    ensures k <= |s|
  {
    if s == "" then 0
    else if CharCount(s, double) <= limit then |s|
    else Cut(s[..|s| - 1], limit, double)
  }

  function Truncated(s: string, limit: int, double: bool): string { s[..Cut(s, limit, double)] }

  // The longest prefix within the limit.
  lemma {:induction false} TruncatedIsLongest(s: string, limit: int, double: bool)
    ensures limit >= 0 || Truncated(s, limit, double) != "" ==> CharCount(Truncated(s, limit, double), double) <= limit
    ensures forall k :: 0 <= k <= |s| && CharCount(s[..k], double) <= limit ==> k <= |Truncated(s, limit, double)|
  {
    if s != "" && CharCount(s, double) > limit {
      var front := s[..|s| - 1];
      TruncatedIsLongest(front, limit, double);
      assert Truncated(s, limit, double) == Truncated(front, limit, double);
      assert s[..|s|] == s;
      forall k | 0 <= k <= |s| && CharCount(s[..k], double) <= limit ensures k <= |Truncated(s, limit, double)| {
        assert s[..k] == front[..k];
      }
    } else {
      assert s[..|s|] == s;
    }
  }

  lemma {:induction false} CountMonotone(s: string, j: nat, k: nat, double: bool)
    requires j <= k <= |s|
    ensures CharCount(s[..j], double) + (k - j) <= CharCount(s[..k], double)
  {
    if j < k {
      CountMonotone(s, j, k - 1, double);
      CountPrefix(s, k - 1, double);
    }
  }

  // A prefix that fits, while one character more does not, is what truncation gives.
  lemma CutHere(s: string, k: nat, limit: int, double: bool)
    requires k <= |s| && (k == 0 || CharCount(s[..k], double) <= limit)
    requires k < |s| ==> CharCount(s[..k + 1], double) > limit
    ensures Truncated(s, limit, double) == s[..k]
  {
    var cut := Cut(s, limit, double);
    TruncatedIsLongest(s, limit, double);
    if k < cut {
      CountMonotone(s, k + 1, cut, double);
    }
  }

  method TruncateText(s: string, limit: int, double: bool) returns (r: string)
    ensures r == Truncated(s, limit, double)
  {
    if limit <= 0 {
      if s != "" { CountMonotone(s, 0, 1, double); }
      CutHere(s, 0, limit, double);
      return "";
    }
    if !double {
      r := if limit >= |s| then s else s[..limit];
      PlainCount(s[..|r|]);
      if |r| < |s| { PlainCount(s[..|r| + 1]); }
      CutHere(s, |r|, limit, double);
      return;
    }
    var current, i := 0, 0;
    r := "";
    while i < |s|
      invariant i <= |s| && r == s[..i] && current == CharCount(s[..i], true) <= limit
    {
      CountPrefix(s, i, true);
      var size := if s[i] >= '\U{80}' then 2 else 1;
      if current + size > limit { break; }
      current, r, i := current + size, r + [s[i]], i + 1;
    }
    CutHere(s, i, limit, true);
  }

  /// ### Building the post

  function Content(a: Article): string { if IsBlank(a.description) then a.plainText else a.description }

  function SourceText(a: Article): string { if IsBlank(a.sourceUrl) then "" else "\n" + a.sourceUrl }

  function Titled(title: string, text: string): string { title + "\n" + text }

  // The title and the content, each whole.
  function WholeBody(a: Article): string { if IsBlank(a.title) then Content(a) else Titled(a.title, Content(a)) }

  function Limit(o: Settings): int { if o.maxLength <= 0 then 300 else o.maxLength }

  function BodyLength(a: Article, o: Settings): nat {
    var contentLength := CharCount(Content(a), o.double);
    if IsBlank(a.title) then contentLength else CharCount(a.title, o.double) + contentLength + 1
  }

  predicate NeedsLink(a: Article, o: Settings) {
    || o.alwaysAddLink
    || BodyLength(a, o) + CharCount(SourceText(a), o.double) >= Limit(o)
    || !IsBlank(a.description)
  }

  function Caption(double: bool): string { if double then "\nRead more:" else "\nRead more: " }

  function SuffixLength(a: Article, o: Settings, url: string): nat {
    (if o.double then 34 else |Caption(false) + url|) + CharCount(SourceText(a), o.double)
  }

  function Available(a: Article, o: Settings, url: string): int { Limit(o) - SuffixLength(a, o, url) }

  function StripLeft(s: string): string {
    if s != "" && (s[0] == ' ' || '\t' <= s[0] <= '\r' || s[0] == '\0') then StripLeft(s[1..]) else s
  }

  // Stripping the whole suffix takes the newline of its caption and no more, whatever follows.
  lemma StripTakesTheNewline(double: bool, rest: string)
    ensures StripLeft(Caption(double) + rest) == Caption(double)[1..] + rest
  {
    var s := Caption(double) + rest;
    assert s[0] == '\n' && s[1] == 'R';
    assert s[1..] == Caption(double)[1..] + rest;
  }

  function BuildContent(a: Article, o: Settings, url: string): Post {
    var double := o.double;
    var content := Content(a);
    var source := SourceText(a);
    if !NeedsLink(a, o) then
      Post(if !IsBlank(a.title) then Titled(a.title, content) else content, "", None, source)
    else
      var titleLength := CharCount(a.title, double);
      var contentLength := CharCount(content, double);
      var available := Available(a, o, url);
      if available <= 0 then Bare(double, url, source)
      else if !IsBlank(a.title) then
        if titleLength >= available - 3 then
          var cut :=
            if available > 3 then Truncated(a.title, available - 3, double) + "..."
            else Truncated(a.title, available, double);
          Linked(cut, double, url, source)
        else
          var remaining := available - titleLength - 1;
          if remaining <= 4 then Linked(a.title, double, url, source)
          else if contentLength <= remaining then Linked(Titled(a.title, content), double, url, source)
          else Linked(Titled(a.title, Truncated(content, remaining - 3, double) + "..."), double, url, source)
      else if contentLength <= available then Linked(content, double, url, source)
      else if available <= 4 then Bare(double, url, source)
      else Linked(Truncated(content, available - 3, double) + "...", double, url, source)
  }

  function Linked(body: string, double: bool, url: string, source: string): Post {
    Post(body, Caption(double), Some(url), source)
  }

  // The suffix alone, stripped on the left.
  function Bare(double: bool, url: string, source: string): Post {
    Post("", StripLeft(Caption(double)), Some(url), source)
  }

  /// ### What the post is

  lemma CaptionCounts(double: bool)
    ensures CharCount(Caption(double), double) == if double then 11 else 12
    ensures StripLeft(Caption(double)) == Caption(double)[1..]
    ensures CharCount(StripLeft(Caption(double)), double) == if double then 10 else 11
  {
    var caption := Caption(double);
    StripTakesTheNewline(double, "");
    assert caption + "" == caption && caption[1..] + "" == caption[1..];
    if double {
      AsciiCount(caption);
      AsciiCount(caption[1..]);
    } else {
      PlainCount(caption);
      PlainCount(caption[1..]);
    }
  }

  lemma {:induction false} AsciiCount(s: string)
    requires forall i :: 0 <= i < |s| ==> s[i] < '\U{80}'
    ensures CharCount(s, true) == |s|
  {
    if s != "" { AsciiCount(s[..|s| - 1]); }
  }

  lemma LinkedSize(body: string, a: Article, o: Settings, url: string)
    ensures Linked(body, o.double, url, SourceText(a)).Size(o.double) ==
      CharCount(body, o.double) + SuffixLength(a, o, url)
    ensures Bare(o.double, url, SourceText(a)).Size(o.double) == SuffixLength(a, o, url) - 1
  {
    CaptionCounts(o.double);
  }

  // What BuildContent counts as the link is its true weight, and the stripped suffix is the
  // text of the stripped pieces.
  lemma BareIsStripped(double: bool, url: string, source: string)
    ensures Bare(double, url, source).Text() == StripLeft(Caption(double) + url + source)
  {
    StripTakesTheNewline(double, url + source);
    CaptionCounts(double);
    Reassociate(Caption(double), url, source);
    Reassociate(Caption(double)[1..], url, source);
  }

  lemma Reassociate(a: string, b: string, c: string)
    ensures a + b + c == a + (b + c) && "" + a + b + c == a + (b + c)
  {
  }

  lemma TitledCounts(title: string, text: string, double: bool)
    ensures CharCount(Titled(title, text), double) == CharCount(title, double) + 1 + CharCount(text, double)
  {
    CountAppend(title + "\n", text, double);
    CountAppend(title, "\n", double);
    assert CharCount("\n", double) == 1 by { assert "\n"[..0] == ""; }
  }

  lemma DotsCount(text: string, double: bool)
    ensures CharCount(text + "...", double) == CharCount(text, double) + 3
  {
    CountAppend(text, "...", double);
    if double { AsciiCount("..."); } else { PlainCount("..."); }
  }

  // A text cut to `room` with an ellipsis takes no more than `room`.
  lemma CutFits(text: string, room: int, double: bool)
    requires room >= 3
    ensures CharCount(Truncated(text, room - 3, double) + "...", double) <= room
  {
    TruncatedIsLongest(text, room - 3, double);
    DotsCount(Truncated(text, room - 3, double), double);
  }

  lemma BodySize(a: Article, o: Settings)
    ensures CharCount(WholeBody(a), o.double) == BodyLength(a, o)
  {
    TitledCounts(a.title, Content(a), o.double);
  }

  lemma UntitledBodyFits(a: Article, o: Settings, url: string)
    requires NeedsLink(a, o) && Available(a, o, url) > 0 && IsBlank(a.title)
    ensures CharCount(BuildContent(a, o, url).body, o.double) <= Available(a, o, url)
  {
    if Available(a, o, url) > 4 { CutFits(Content(a), Available(a, o, url), o.double); }
  }

  lemma TitledBodyFits(a: Article, o: Settings, url: string)
    requires NeedsLink(a, o) && Available(a, o, url) > 0 && !IsBlank(a.title)
    ensures CharCount(BuildContent(a, o, url).body, o.double) <= Available(a, o, url)
  {
    var double, content, available := o.double, Content(a), Available(a, o, url);
    var remaining := available - CharCount(a.title, double) - 1;
    if available <= 3 {
      TruncatedIsLongest(a.title, available, double);
    } else if CharCount(a.title, double) >= available - 3 {
      CutFits(a.title, available, double);
    } else if remaining > 4 {
      CutFits(content, remaining, double);
      TitledCounts(a.title, content, double);
      TitledCounts(a.title, Truncated(content, remaining - 3, double) + "...", double);
    }
  }

  lemma LinkedOrBare(a: Article, o: Settings, url: string)
    ensures var p := BuildContent(a, o, url);
      if NeedsLink(a, o) then
        p == Linked(p.body, o.double, url, SourceText(a)) || (p.body == "" && p == Bare(o.double, url, SourceText(a)))
      else
        p == Post(WholeBody(a), "", None, SourceText(a))
  {
  }

  lemma PostSize(a: Article, o: Settings, url: string)
    ensures var p := BuildContent(a, o, url);
      NeedsLink(a, o) ==>
        p.Size(o.double) ==
          CharCount(p.body, o.double) + SuffixLength(a, o, url) - (if p.caption == Caption(o.double) then 0 else 1)
    ensures !NeedsLink(a, o) ==>
      BuildContent(a, o, url).Size(o.double) == BodyLength(a, o) + CharCount(SourceText(a), o.double)
  {
    BodySize(a, o);
    CaptionCounts(o.double);
    LinkedOrBare(a, o, url);
    LinkedSize(BuildContent(a, o, url).body, a, o, url);
    if !NeedsLink(a, o) { assert CharCount("", o.double) == 0; }
  }

  // The post fits its platform's limit exactly when no link is needed or the suffix alone
  // exceeds the limit by at most the newline that stripping takes.
  lemma PostFits(a: Article, o: Settings, url: string)
    ensures BuildContent(a, o, url).Size(o.double) <= Limit(o) <==>
      !NeedsLink(a, o) || SuffixLength(a, o, url) <= Limit(o) + 1
  {
    PostSize(a, o, url);
    CaptionCounts(o.double);
    if NeedsLink(a, o) && Available(a, o, url) > 0 {
      if IsBlank(a.title) { UntitledBodyFits(a, o, url); } else { TitledBodyFits(a, o, url); }
    }
  }

  predicate Drawn(body: string, title: string, content: string, j: nat, k: nat) {
    && j <= |title| && k <= |content|
    && (body == title[..j] || body == title[..j] + "..." || body == content[..k] || body == content[..k] + "..."
        || body == Titled(title, content[..k]) || body == Titled(title, content[..k] + "..."))
  }

  // The link is never cut, except for the newline before it when it stands alone; nor is the source.
  lemma SuffixIsWhole(a: Article, o: Settings, url: string)
    ensures var p := BuildContent(a, o, url);
      && p.source == SourceText(a)
      && (NeedsLink(a, o) <==> p.link == Some(url))
      && (NeedsLink(a, o) ==> p.caption == Caption(o.double) || (p.body == "" && p.caption == Caption(o.double)[1..]))
  {
    LinkedOrBare(a, o, url);
    CaptionCounts(o.double);
  }

  lemma UntitledBodyIsDrawn(a: Article, o: Settings, url: string)
    requires IsBlank(a.title)
    ensures exists j, k :: Drawn(BuildContent(a, o, url).body, a.title, Content(a), j, k)
  {
    var body, content, available := BuildContent(a, o, url).body, Content(a), Available(a, o, url);
    var k :=
      if !NeedsLink(a, o) || 0 < CharCount(content, o.double) <= available then |content|
      else if available <= 4 then 0
      else Cut(content, available - 3, o.double);
    assert content[..|content|] == content;
    assert Drawn(body, a.title, content, 0, k);
  }

  lemma CutTitleIsDrawn(a: Article, o: Settings, url: string)
    requires !IsBlank(a.title) && NeedsLink(a, o) && Available(a, o, url) > 0
    requires CharCount(a.title, o.double) >= Available(a, o, url) - 3
    ensures exists j, k :: Drawn(BuildContent(a, o, url).body, a.title, Content(a), j, k)
  {
    var available := Available(a, o, url);
    var j := Cut(a.title, if available > 3 then available - 3 else available, o.double);
    assert Drawn(BuildContent(a, o, url).body, a.title, Content(a), j, 0);
  }

  lemma WholeTitleIsDrawn(a: Article, o: Settings, url: string)
    requires !IsBlank(a.title) && NeedsLink(a, o)
    requires CharCount(a.title, o.double) < Available(a, o, url) - 3
    ensures exists j, k :: Drawn(BuildContent(a, o, url).body, a.title, Content(a), j, k)
  {
    var body, content := BuildContent(a, o, url).body, Content(a);
    var remaining := Available(a, o, url) - CharCount(a.title, o.double) - 1;
    if remaining <= 4 || CharCount(content, o.double) <= remaining {
      assert content[..|content|] == content && a.title[..|a.title|] == a.title;
      assert Drawn(body, a.title, content, |a.title|, |content|);
    } else {
      assert Drawn(body, a.title, content, 0, Cut(content, remaining - 3, o.double));
    }
  }

  lemma TitledBodyIsDrawn(a: Article, o: Settings, url: string)
    requires !IsBlank(a.title)
    ensures exists j, k :: Drawn(BuildContent(a, o, url).body, a.title, Content(a), j, k)
  {
    var body, content, available := BuildContent(a, o, url).body, Content(a), Available(a, o, url);
    if !NeedsLink(a, o) {
      assert content[..|content|] == content;
      assert Drawn(body, a.title, content, 0, |content|);
    } else if available <= 0 {
      assert Drawn(body, a.title, content, 0, 0);
    } else if CharCount(a.title, o.double) >= available - 3 {
      CutTitleIsDrawn(a, o, url);
    } else {
      WholeTitleIsDrawn(a, o, url);
    }
  }

  // The body holds nothing but a prefix of the title or of the content, or the whole title
  // above a prefix of the content, with an ellipsis or without.
  lemma BodyIsDrawn(a: Article, o: Settings, url: string)
    ensures exists j, k :: Drawn(BuildContent(a, o, url).body, a.title, Content(a), j, k)
  {
    if IsBlank(a.title) { UntitledBodyIsDrawn(a, o, url); } else { TitledBodyIsDrawn(a, o, url); }
  }

  // Beside a link, title and content appear whole exactly when they fit and the title leaves
  // more than five characters; nearer to the limit the content goes although it would fit.
  lemma ShownWhole(a: Article, o: Settings, url: string)
    requires NeedsLink(a, o) && Available(a, o, url) > 0 && !IsBlank(a.title)
    ensures BuildContent(a, o, url).body == WholeBody(a) <==>
      BodyLength(a, o) <= Available(a, o, url) && CharCount(a.title, o.double) < Available(a, o, url) - 5
  {
    var double, content, available := o.double, Content(a), Available(a, o, url);
    var body := BuildContent(a, o, url).body;
    var remaining := available - CharCount(a.title, double) - 1;
    if CharCount(a.title, double) >= available - 3 {
      assert WholeBody(a)[|a.title|] == '\n';
    } else if remaining > 4 && CharCount(content, double) > remaining {
      TitledBodyFits(a, o, url);
      BodySize(a, o);
    }
  }
}
