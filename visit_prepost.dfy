/** The admin page that drafts a visit post as HTML
    (app/hidden/visit-prepost/page.tsx): the text typed into the page becomes
    paragraphs, the URL lines become image blocks, and one of three layouts
    wraps them with the title and a memo box. */
module VisitPrePost {
  import opened Js

  /** `content.split('\n').filter(Boolean)`: the non-empty lines, in order.
      Lines are not trimmed, so a line of spaces is a paragraph. */
  function Paragraphs(content: string): (ps: seq<string>)
    ensures forall k :: 0 <= k < |ps| ==> ps[k] != "" && '\n' !in ps[k]
    ensures |ps| <= Count(content, '\n') + 1
  {
    SplitPiecesLackSeparator(content, '\n');
    SplitCount(content, '\n');
    Filter(Split(content, '\n'), NonEmpty)
  }

  /** `url.startsWith('http')` */
  predicate IsHttp(u: string)
  {
    StartsWith(u, "http")
  }

  /** `imageUrls.split('\n').filter((url) => url.startsWith('http'))`: the
      lines that start with "http", in order; other lines are dropped. */
  function ImageList(imageUrls: string): (us: seq<string>)
    ensures forall k :: 0 <= k < |us| ==> IsHttp(us[k]) && '\n' !in us[k]
    ensures |us| <= Count(imageUrls, '\n') + 1
  {
    SplitPiecesLackSeparator(imageUrls, '\n');
    SplitCount(imageUrls, '\n');
    Filter(Split(imageUrls, '\n'), IsHttp)
  }

  /** Typed as lines, paragraphs come back as the non-empty lines. */
  lemma {:induction false} ParagraphsOfLines(lines: seq<string>)
    requires |lines| >= 1
    requires forall k :: 0 <= k < |lines| ==> '\n' !in lines[k]
    ensures Paragraphs(Join(lines, "\n")) == Filter(lines, NonEmpty)
  {
    SplitJoin(lines, '\n');
  }

  /** Typed as lines, image URLs come back as the lines starting with "http". */
  lemma {:induction false} ImageListOfLines(lines: seq<string>)
    requires |lines| >= 1
    requires forall k :: 0 <= k < |lines| ==> '\n' !in lines[k]
    ensures ImageList(Join(lines, "\n")) == Filter(lines, IsHttp)
  {
    SplitJoin(lines, '\n');
  }

  /** The text of `buildImageBlock` (lines 19-22) around the URL. */
  const ImageOpen := "<div style=\"margin-bottom: 24px;\">\n        <img src=\""
  const ImageClose := "\" alt=\"이미지\" style=\"width: 100%; max-height: 320px; object-fit: cover; border-radius: 6px; box-shadow: 0 2px 6px rgba(0,0,0,0.1);\" />\n      </div>"

  /** `buildImageBlock(src)` */
  function ImageBlock(src: string): string
  {
    ImageOpen + src + ImageClose
  }

  /** `imageList.map(buildImageBlock).join('\n')` */
  function ImageBlocks(us: seq<string>): (r: string)
    ensures us == [] ==> r == ""
    ensures |us| >= 1 ==> StartsWith(r, ImageBlock(us[0]))
  {
    Join(Map(us, ImageBlock), "\n")
  }

  /** `<p>${text}</p>` */
  function ParagraphTag(text: string): (r: string)
    ensures StartsWith(r, "<p>") && OccursAt(r, text, 3) && |r| == |text| + 7
  {
    "<p>" + text + "</p>"
  }

  /** `paragraphs.map((text) => `<p>${text}</p>`).join('\n\n')` */
  function ParagraphHtml(ps: seq<string>): string
  {
    Join(Map(ps, ParagraphTag), "\n\n")
  }

  /** The text of the memo box (lines 30-38) around the title and the date. */
  const MemoOpen := "\n    <div style=\"background-color: #f8fafc; border: 1px solid #cbd5e1; border-radius: 6px; padding: 16px 20px; margin-top: 24px;\">\n      <h3 style=\"margin: 0; color: #0f172a; font-weight: bold; font-size: 1rem; margin-bottom: 8px;\">📝 짧은 메모</h3>\n      <ul style=\"padding-left: 1.2em; margin: 0; color: #334155;\">\n        <li>장소명: "
  const MemoDate := "</li>\n        <li>작성일: "
  const MemoClose := "</li>\n        <li>추천 포인트: 자연, 풍경, 휴식</li>\n      </ul>\n    </div>"

  /** The memo box; `today` is the browser's `toLocaleDateString()`. */
  function MemoBlock(title: string, today: string): string
  {
    MemoOpen + title + MemoDate + today + MemoClose
  }

  /** What the three layouts differ in: the section and header up to the
      title, the header's end with its subtitle, and the article's opening. */
  datatype Layout = Layout(head: string, afterTitle: string, beforeArticle: string)

  /** The text every layout shares after the paragraphs and after the memo. */
  const ArticleClose := "\n        </article>\n        "
  const SectionClose := "\n      </section>"

  /** The layout for the template select: "1" (lines 44-55), "2" (lines
      58-69), anything else (lines 72-83). */
  function SelectLayout(template: string): Layout
  {
    if template == "1" then
      Layout(
      "\n      <section style=\"max-width: 800px; margin: 0 auto; padding: 32px; font-family: sans-serif; font-size: 15px; line-height: 1.8; color: #1f2937;\">\n        <div style=\"background-color: #f1f5f9; padding: 16px 20px; border-left: 6px solid #3b82f6; border-radius: 6px; margin-bottom: 24px;\">\n          <h1 style=\"margin: 0; font-size: 1.5rem; color: #1d4ed8; font-weight: bold;\">",
      "</h1>\n          <p style=\"margin-top: 4px; color: #475569; font-size: 0.875rem;\">태백에서의 소중한 기록</p>\n        </div>\n        ",
      "\n        <article style=\"display: flex; flex-direction: column; gap: 24px;\">\n          ")
    else if template == "2" then
      Layout(
      "\n      <section style=\"max-width: 880px; margin: 0 auto; padding: 40px; font-family: sans-serif; font-size: 15px; line-height: 1.8; color: #1f2937;\">\n        <div style=\"background-color: #ecfdf5; padding: 16px 20px; border-left: 6px solid #10b981; border-radius: 6px; margin-bottom: 28px;\">\n          <h1 style=\"margin: 0; font-size: 1.5rem; color: #047857; font-weight: bold;\">",
      "</h1>\n          <p style=\"margin-top: 4px; color: #065f46; font-size: 0.875rem;\">자연이 주는 휴식과 회복의 공간</p>\n        </div>\n        ",
      "\n        <article style=\"display: flex; flex-direction: column; gap: 20px;\">\n          ")
    else
      Layout(
      "\n      <section style=\"max-width: 880px; margin: 0 auto; padding: 40px; font-family: sans-serif; font-size: 15px; line-height: 1.8; color: #1f2937;\">\n        <div style=\"background-color: #eff6ff; padding: 16px 20px; border-left: 6px solid #3b82f6; border-radius: 6px; margin-bottom: 28px;\">\n          <h1 style=\"margin: 0; font-size: 1.6rem; color: #1d4ed8; font-weight: bold;\">",
      "</h1>\n          <p style=\"margin-top: 4px; color: #334155; font-size: 0.9rem;\">도시를 떠나 찾은 태백의 특별한 순간</p>\n        </div>\n        ",
      "\n        <article style=\"display: flex; flex-direction: column; gap: 26px;\">\n          ")
  }

  /** A layout filled in. */
  function Render(layout: Layout, title: string, images: string, paragraphs: string, memo: string): (r: string)
    ensures StartsWith(r, layout.head + title)
    ensures |r| == |layout.head| + |title| + |layout.afterTitle| + |images| + |layout.beforeArticle| +
      |paragraphs| + |ArticleClose| + |memo| + |SectionClose|
  {
    layout.head + title + layout.afterTitle + images + layout.beforeArticle +
    paragraphs + ArticleClose + memo + SectionClose
  }

  /** `generateHTML` (lines 13-87): nothing when the title or the content is
      empty, and the filled layout otherwise. */
  function GenerateHtml(title: string, content: string, imageUrls: string, template: string, today: string): (r: Option<string>)
    ensures r.None? <==> title == "" || content == ""
  {
    if title == "" || content == "" then None
    else
      var images := ImageBlocks(ImageList(imageUrls));
      var paragraphs := ParagraphHtml(Paragraphs(content));
      Some(Render(SelectLayout(template), title, images, paragraphs, MemoBlock(title, today)))
  }

  /** The parts of a rendered layout, each occurring in it. */
  lemma RenderContainsParts(layout: Layout, title: string, images: string, paragraphs: string, memo: string)
    ensures var html := Render(layout, title, images, paragraphs, memo);
      StartsWith(html, layout.head + title + layout.afterTitle) &&
      Contains(html, images) && Contains(html, paragraphs) && Contains(html, memo)
  {
    var html := Render(layout, title, images, paragraphs, memo);
    var a := layout.head + title + layout.afterTitle;
    assert html == a + images + (layout.beforeArticle + paragraphs + ArticleClose + memo + SectionClose);
    ContainsMiddle(a, images, layout.beforeArticle + paragraphs + ArticleClose + memo + SectionClose);
    assert html == (a + images + layout.beforeArticle) + paragraphs + (ArticleClose + memo + SectionClose);
    ContainsMiddle(a + images + layout.beforeArticle, paragraphs, ArticleClose + memo + SectionClose);
    assert html == (a + images + layout.beforeArticle + paragraphs + ArticleClose) + memo + SectionClose;
    ContainsMiddle(a + images + layout.beforeArticle + paragraphs + ArticleClose, memo, SectionClose);
  }

  /** The draft opens with the chosen layout's header holding the title, and
      the memo box lists the title again. */
  lemma HtmlShowsTitle(title: string, content: string, imageUrls: string, template: string, today: string)
    requires title != "" && content != ""
    ensures var html := GenerateHtml(title, content, imageUrls, template, today).value;
      var layout := SelectLayout(template);
      StartsWith(html, layout.head + title + layout.afterTitle) &&
      Contains(html, MemoOpen + title + MemoDate + today)
  {
    var html := GenerateHtml(title, content, imageUrls, template, today).value;
    var memo := MemoBlock(title, today);
    RenderContainsParts(SelectLayout(template), title, ImageBlocks(ImageList(imageUrls)),
      ParagraphHtml(Paragraphs(content)), memo);
    ContainsPrefix(MemoOpen + title + MemoDate + today, MemoClose);
    ContainsTransitive(html, memo, MemoOpen + title + MemoDate + today);
  }

  /** Every paragraph of the content appears in the draft as a `<p>` element. */
  lemma HtmlShowsParagraph(title: string, content: string, imageUrls: string, template: string, today: string, k: nat)
    requires title != "" && content != ""
    requires k < |Paragraphs(content)|
    ensures Contains(GenerateHtml(title, content, imageUrls, template, today).value,
      ParagraphTag(Paragraphs(content)[k]))
  {
    var html := GenerateHtml(title, content, imageUrls, template, today).value;
    var ps := Paragraphs(content);
    RenderContainsParts(SelectLayout(template), title, ImageBlocks(ImageList(imageUrls)),
      ParagraphHtml(ps), MemoBlock(title, today));
    JoinContainsPiece(Map(ps, ParagraphTag), "\n\n", k);
    ContainsTransitive(html, ParagraphHtml(ps), ParagraphTag(ps[k]));
  }

  /** Every image URL line appears in the draft as the source of an image block. */
  lemma HtmlShowsImage(title: string, content: string, imageUrls: string, template: string, today: string, k: nat)
    requires title != "" && content != ""
    requires k < |ImageList(imageUrls)|
    ensures Contains(GenerateHtml(title, content, imageUrls, template, today).value,
      ImageOpen + ImageList(imageUrls)[k] + ImageClose)
  {
    var html := GenerateHtml(title, content, imageUrls, template, today).value;
    var us := ImageList(imageUrls);
    RenderContainsParts(SelectLayout(template), title, ImageBlocks(us),
      ParagraphHtml(Paragraphs(content)), MemoBlock(title, today));
    JoinContainsPiece(Map(us, ImageBlock), "\n", k);
    ContainsTransitive(html, ImageBlocks(us), ImageBlock(us[k]));
  }

  /** The page's state: the four inputs and the generated code shown below them. */
  class Page {
    var title: string
    var content: string
    var imageUrls: string
    var template: string
    var htmlCode: string

    /** The initial state (lines 7-11). */
    constructor ()
      ensures title == "" && content == "" && imageUrls == "" && template == "1" && htmlCode == ""
    {
      title := "";
      content := "";
      imageUrls := "";
      template := "1";
      htmlCode := "";
    }

    /** The generate button: the code shown becomes the draft of the current
        inputs, and stays as it was when the title or content is empty. */
    method Generate(today: string)
      modifies this`htmlCode
      ensures var r := GenerateHtml(title, content, imageUrls, template, today);
        htmlCode == (if r.Some? then r.value else old(htmlCode))
    {
      var finalHtml := GenerateHtml(title, content, imageUrls, template, today);
      if finalHtml.Some? {
        htmlCode := finalHtml.value;
      }
    }
  }
}
