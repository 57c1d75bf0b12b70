/**
 The text that `Crosspost` posts, told from the article: when it is linked, what it says
 without a link, and where it is cut to make room for one.
 */
module CrosspostText {
  import opened Options
  import opened Crosspost

  // The white space of the Unicode standard.
  lemma SpacesAre(c: char)
    ensures IsSpace(c) <==> c as int in {
      9, 10, 11, 12, 13, 32, 133, 160, 0x1680, 0x2000, 0x2001, 0x2002, 0x2003, 0x2004, 0x2005, 0x2006, 0x2007,
      0x2008, 0x2009, 0x200A, 0x2028, 0x2029, 0x202F, 0x205F, 0x3000}
  {
  }

  ghost predicate HasText(s: string) { exists i :: 0 <= i < |s| && !IsSpace(s[i]) }

  ghost function Story(a: Article): string {
    if HasText(a.description) then a.description else a.plainText
  }

  ghost function Source(a: Article): string {
    if HasText(a.sourceUrl) then "\n" + a.sourceUrl else ""
  }

  // Everything an article has to say, without a link.
  ghost function Everything(a: Article): string {
    (if HasText(a.title) then a.title + "\n" else "") + Story(a) + Source(a)
  }

  ghost function LimitOf(o: Settings): int {
    if o.maxLength > 0 then o.maxLength else 300
  }

  // The weight that the link and the source leave for the body.
  ghost function Room(a: Article, o: Settings, url: string): int {
    LimitOf(o) - (if o.double then 34 else 12 + |url|) - CharCount(Source(a), o.double)
  }

  lemma SameNotions(a: Article, o: Settings, url: string)
    ensures Story(a) == Content(a) && Source(a) == SourceText(a) && HasText(a.title) == !IsBlank(a.title)
    ensures HasText(a.description) == !IsBlank(a.description) && LimitOf(o) == Limit(o)
    ensures Room(a, o, url) == Available(a, o, url)
  {
  }

  // A post is linked when the settings ask for it, when the article has a description, or when
  // everything would not stay under the limit.
  lemma LinkedExactly(a: Article, o: Settings, url: string)
    ensures BuildContent(a, o, url).link == Some(url) <==>
      o.alwaysAddLink || HasText(a.description) || CharCount(Everything(a), o.double) >= LimitOf(o)
  {
    SameNotions(a, o, url);
    EverythingCounts(a, o.double);
    BodySize(a, o);
    SuffixIsWhole(a, o, url);
  }

  // Otherwise it says everything.
  lemma UnlinkedSaysEverything(a: Article, o: Settings, url: string)
    requires BuildContent(a, o, url).link != Some(url)
    ensures BuildContent(a, o, url).Text() == Everything(a)
  {
    SuffixIsWhole(a, o, url);
    EverythingCounts(a, o.double);
    LinkedOrBare(a, o, url);
    AddsNothing(WholeBody(a), SourceText(a));
  }

  lemma AddsNothing(body: string, source: string)
    ensures Post(body, "", None, source).Text() == body + source
  {
    assert body + "" + "" == body;
  }

  lemma EverythingCounts(a: Article, double: bool)
    ensures Everything(a) == WholeBody(a) + SourceText(a)
    ensures CharCount(Everything(a), double) == CharCount(WholeBody(a), double) + CharCount(SourceText(a), double)
  {
    CountAppend(WholeBody(a), SourceText(a), double);
    assert "" + Story(a) == Story(a);
  }

  // What a linked post says behind its body: a line break, the link as it is labelled, and the
  // source. The line break goes where there is no room for a body, or only four characters
  // for a story that does not fit.
  lemma LinkedText(a: Article, o: Settings, url: string)
    requires BuildContent(a, o, url).link == Some(url)
    ensures
      var post, room := BuildContent(a, o, url), Room(a, o, url);
      var words := if o.double then "Read more:" else "Read more: ";
      if room <= 0 || (!HasText(a.title) && CharCount(Story(a), o.double) > room && room <= 4)
      then post.Text() == words + url + Source(a)
      else post.Text() == post.body + "\n" + words + url + Source(a)
  {
    SuffixIsWhole(a, o, url);
    SameNotions(a, o, url);
    BareWhen(a, o, url);
    CaptionSays(o.double);
    var post := BuildContent(a, o, url);
    if post.caption == Caption(o.double) {
      Behind(post.body, Caption(o.double)[1..]);
    } else {
      assert "" + post.caption == post.caption;
    }
  }

  lemma BareWhen(a: Article, o: Settings, url: string)
    requires NeedsLink(a, o)
    ensures
      var post, room := BuildContent(a, o, url), Available(a, o, url);
      if room <= 0 || (IsBlank(a.title) && CharCount(Content(a), o.double) > room && room <= 4)
      then post == Post("", Caption(o.double)[1..], Some(url), SourceText(a))
      else post.caption == Caption(o.double) && post.link == Some(url)
  {
    CaptionCounts(o.double);
  }

  lemma CaptionSays(double: bool)
    ensures Caption(double)[1..] == if double then "Read more:" else "Read more: "
    ensures Caption(double) == "\n" + Caption(double)[1..]
  {
  }

  lemma Behind(body: string, words: string)
    ensures body + ("\n" + words) == body + "\n" + words
  {
  }

  // `cut` is the longest beginning of the text that fits, with `dots` behind it.
  ghost predicate CutTight(cut: string, text: string, dots: string, room: int, double: bool) {
    exists k: nat ::
      && k <= |text| && cut == text[..k] + dots
      && CharCount(text[..k], double) + |dots| <= room
      && (k < |text| ==> CharCount(text[..k + 1], double) + |dots| > room)
  }

  lemma TruncationIsTight(text: string, dots: string, room: int, double: bool)
    requires room >= |dots|
    ensures CutTight(Truncated(text, room - |dots|, double) + dots, text, dots, room, double)
  {
    var k := Cut(text, room - |dots|, double);
    TruncatedIsLongest(text, room - |dots|, double);
    assert Truncated(text, room - |dots|, double) == text[..k];
    assert text[..0] == "";
    if k < |text| { assert |text[..k + 1]| == k + 1; }
  }

  // `left` is the weight that the title and its line break leave for the story.
  ghost predicate FillsBelow(body: string, title: string, story: string, left: int, double: bool) {
    if left <= 4 then body == title
    else if CharCount(story, double) <= left then body == title + "\n" + story
    else exists cut :: body == Titled(title, cut) && CutTight(cut, story, "...", left, double)
  }

  // What stands before the link: a title that leaves too little is cut, with dots where there
  // is room for any; below a shorter one the story stands whole where it fits, cut where more
  // than four characters are left, and not at all otherwise. Without a title the story has all
  // the room.
  ghost predicate FillsRoom(body: string, title: string, story: string, room: int, double: bool) {
    if room <= 0 then body == ""
    else if HasText(title) then
      var left := room - CharCount(title, double) - 1;
      if left <= 2 then CutTight(body, title, if room > 3 then "..." else "", room, double)
      else FillsBelow(body, title, story, left, double)
    else if CharCount(story, double) <= room then body == story
    else if room <= 4 then body == ""
    else CutTight(body, story, "...", room, double)
  }

  // The branches of BuildContent on the title, the story and the room alone.
  function BodyOf(title: string, story: string, room: int, double: bool): string {
    var left := room - CharCount(title, double) - 1;
    if room <= 0 then ""
    else if !IsBlank(title) then
      if left > 2 then BelowOf(title, story, left, double)
      else TitleOf(title, room, double)
    else if CharCount(story, double) <= room then story
    else if room <= 4 then "" else Truncated(story, room - 3, double) + "..."
  }

  function BelowOf(title: string, story: string, left: int, double: bool): string {
    if left <= 4 then title
    else if CharCount(story, double) <= left then Titled(title, story)
    else Titled(title, Truncated(story, left - 3, double) + "...")
  }

  lemma BodyIs(a: Article, o: Settings, url: string)
    requires NeedsLink(a, o)
    ensures BuildContent(a, o, url).body == BodyOf(a.title, Content(a), Available(a, o, url), o.double)
  {
  }

  lemma BelowFills(title: string, story: string, left: int, double: bool)
    ensures FillsBelow(BelowOf(title, story, left, double), title, story, left, double)
  {
    if left > 4 { TruncationIsTight(story, "...", left, double); }
  }

  // A title cut to the room.
  function TitleOf(title: string, room: int, double: bool): string {
    if room > 3 then Truncated(title, room - 3, double) + "..." else Truncated(title, room, double)
  }

  lemma TitleFills(title: string, room: int, double: bool)
    requires 0 < room
    ensures CutTight(TitleOf(title, room, double), title, if room > 3 then "..." else "", room, double)
  {
    if room > 3 {
      TruncationIsTight(title, "...", room, double);
    } else {
      TruncationIsTight(title, "", room, double);
      assert Truncated(title, room, double) + "" == Truncated(title, room, double);
    }
  }

  lemma CutTitleFills(title: string, story: string, room: int, double: bool)
    requires HasText(title) && 0 < room && room - CharCount(title, double) - 1 <= 2
    ensures FillsRoom(TitleOf(title, room, double), title, story, room, double)
  {
    TitleFills(title, room, double);
  }

  lemma WholeTitleFills(title: string, story: string, room: int, double: bool)
    requires HasText(title) && room - CharCount(title, double) - 1 > 2
    ensures FillsRoom(BelowOf(title, story, room - CharCount(title, double) - 1, double), title, story, room, double)
  {
    BelowFills(title, story, room - CharCount(title, double) - 1, double);
  }

  lemma TitledFills(title: string, story: string, room: int, double: bool)
    requires HasText(title) && !IsBlank(title)
    ensures FillsRoom(BodyOf(title, story, room, double), title, story, room, double)
  {
    var body, left := BodyOf(title, story, room, double), room - CharCount(title, double) - 1;
    if room <= 0 {
      assert body == "";
    } else if left <= 2 {
      assert body == TitleOf(title, room, double);
      CutTitleFills(title, story, room, double);
    } else {
      assert body == BelowOf(title, story, left, double);
      WholeTitleFills(title, story, room, double);
    }
  }

  lemma UntitledFills(title: string, story: string, room: int, double: bool)
    requires !HasText(title)
    ensures FillsRoom(BodyOf(title, story, room, double), title, story, room, double)
  {
    if room > 4 { TruncationIsTight(story, "...", room, double); }
  }

  // A linked post fills the room that its link leaves.
  lemma LinkedBody(a: Article, o: Settings, url: string)
    requires BuildContent(a, o, url).link == Some(url)
    ensures FillsRoom(BuildContent(a, o, url).body, a.title, Story(a), Room(a, o, url), o.double)
  {
    SuffixIsWhole(a, o, url);
    SameNotions(a, o, url);
    BodyIs(a, o, url);
    FillsEither(a.title, Story(a), Room(a, o, url), o.double);
  }

  lemma FillsEither(title: string, story: string, room: int, double: bool)
    ensures FillsRoom(BodyOf(title, story, room, double), title, story, room, double)
  {
    if HasText(title) { TitledFills(title, story, room, double); } else { UntitledFills(title, story, room, double); }
  }
}
