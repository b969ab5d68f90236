/** `formatResponse`: the recommendation record rendered as one HTML string, built by
    appending to an accumulator, with one loop per list. */
module Renderer {
  import opened Options
  import opened Templates

  /** The eight sections of a rendered response. */
  datatype Section = Advice | Duration | Features | Technologies | Budget | Terms | Summary | Questions

  /** The order in which the sections appear inside the wrapper. */
  const SectionOrder: seq<Section> :=
    [Advice, Duration, Features, Technologies, Budget, Terms, Summary, Questions]

  /** The list a list section shows; paragraph sections show none. */
  function SectionItems(s: Section, d: ResponseData): seq<string>
  {
    match s
    case Features => d.features
    case Technologies => d.technologies
    case Terms => d.terms
    case Questions => d.questions
    case _ => []
  }

  const ResponseOpen: string := "<div class='response-content'>"
  const BudgetBoxOpen: string :=
    "<div style='background: #f8f9fa; padding: 15px; border-radius: 5px; border-left: 4px solid #007cba;'>"
  const SummaryOpen: string :=
    "<div class='summary-section' style='background: #e7f3ff; padding: 20px; border-radius: 8px; border-left: 5px solid #007cba;'>"
  const QuestionsIntro: string := "<p>Consider these important questions for your project planning:</p>"

  /** One list item. */
  function Li(item: string): string
  {
    "<li>" + item + "</li>"
  }

  /** The list items of `items`, in order, as the `foreach` loops append them. */
  function ItemsHtml(items: seq<string>): string
  {
    if items == [] then "" else ItemsHtml(items[..|items| - 1]) + Li(items[|items| - 1])
  }

  /** The opening tag of a section's `div`. */
  function Opening(s: Section): string
  {
    match s
    case Advice => "<div class='advice-section'>"
    case Duration => "<div class='duration-section'>"
    case Features => "<div class='features-section'>"
    case Technologies => "<div class='tech-section'>"
    case Budget => "<div class='budget-section'>"
    case Terms => "<div class='terms-section'>"
    case Summary => SummaryOpen
    case Questions => "<div class='questions-section'>"
  }

  /** A section's `<h3>` heading. */
  function Heading(s: Section): string
  {
    match s
    case Advice => "<h3>💡 Project Recommendations</h3>"
    case Duration => "<h3>⏱️ Development Timeline</h3>"
    case Features => "<h3>✨ Recommended Features</h3>"
    case Technologies => "<h3>🔧 Technology Stack</h3>"
    case Budget => "<h3>💰 Investment Overview</h3>"
    case Terms => "<h3>📋 Project Terms</h3>"
    case Summary => "<h3>📋 Executive Summary</h3>"
    case Questions => "<h3>❓ Next Steps</h3>"
  }

  /** What opens a section's body: a paragraph or list tag, or the budget box. The
      questions section puts an introductory paragraph before its list. */
  function Lead(s: Section): string
  {
    match s
    case Advice => "<p>"
    case Duration => "<p>"
    case Budget => BudgetBoxOpen
    case Summary => "<p><strong>"
    case Questions => QuestionsIntro + "<ul>"
    case _ => "<ul>"
  }

  /** What a section shows: a text of the record, or the list items of its list. */
  function Content(s: Section, d: ResponseData): string
  {
    match s
    case Advice => d.advice
    case Duration => d.duration
    case Budget => d.budget
    case Summary => d.summary
    case _ => ItemsHtml(SectionItems(s, d))
  }

  /** What closes a section's body. */
  function Tail(s: Section): string
  {
    match s
    case Advice => "</p>"
    case Duration => "</p>"
    case Budget => "</div>"
    case Summary => "</strong></p>"
    case _ => "</ul>"
  }

  /** `h` followed by the markup of section `s` of record `d`. */
  function WithSection(h: string, s: Section, d: ResponseData): string
  {
    h + Opening(s) + Heading(s) + Lead(s) + Content(s, d) + Tail(s) + "</div>"
  }

  /** The markup of one section on its own. */
  function SectionHtml(s: Section, d: ResponseData): string
  {
    WithSection("", s, d)
  }

  /** `h` followed by the sections `ss`, appended one after the other. */
  function WithSections(h: string, ss: seq<Section>, d: ResponseData): string
  {
    if ss == [] then h else WithSection(WithSections(h, ss[..|ss| - 1], d), ss[|ss| - 1], d)
  }

  /** The sections `ss` rendered one after the other. */
  function SectionsHtml(ss: seq<Section>, d: ResponseData): string
  {
    if ss == [] then "" else SectionsHtml(ss[..|ss| - 1], d) + SectionHtml(ss[|ss| - 1], d)
  }

  /** The rendered response for record `d`: all sections in `SectionOrder`, then the
      closing tag of the wrapper opened by `ResponseOpen`. */
  function Render(d: ResponseData): string
  {
    WithSections(ResponseOpen, SectionOrder, d) + "</div>"
  }

  /** The list items the response shows, section by section in document order. */
  function ListedItems(ss: seq<Section>, d: ResponseData): seq<string>
  {
    if ss == [] then [] else ListedItems(ss[..|ss| - 1], d) + SectionItems(ss[|ss| - 1], d)
  }

  // Small lemmas over arbitrary strings and lists (`AppendAssoc`, `Regroup`, `TakeAll`,
  // `Enclosed`, `NoItemsAdded`, `SectionOrderBuilt`, `DropEmptyFront`). Each states a
  // plain fact about concatenation or slicing; they exist so that the proofs about the
  // markup, whose terms hold many long literals, never have to prove a sequence
  // equality themselves, which keeps those proofs cheap for the verifier.

  lemma AppendAssoc(a: string, b: string, c: string)
    ensures (a + b) + c == a + (b + c)
  {
  }

  /** Appending a section to `h` leaves `h` in front of that section's own markup. */
  lemma WithSectionAppends(h: string, s: Section, d: ResponseData)
    ensures WithSection(h, s, d) == h + SectionHtml(s, d)
  {
    Regroup(h, Opening(s), Heading(s), Lead(s), Content(s, d), Tail(s), "</div>");
  }

  lemma Regroup(h: string, o: string, t: string, l: string, c: string, e: string, z: string)
    ensures h + o + t + l + c + e + z == h + ("" + o + t + l + c + e + z)
  {
    assert "" + o == o;
  }

  /** Appending sections to `h` leaves `h` in front of their markup, in order. */
  lemma {:induction false} WithSectionsAppends(h: string, ss: seq<Section>, d: ResponseData)
    ensures WithSections(h, ss, d) == h + SectionsHtml(ss, d)
  {
    if ss != [] {
      var init, last := ss[..|ss| - 1], ss[|ss| - 1];
      WithSectionsAppends(h, init, d);
      var a, b := SectionsHtml(init, d), SectionHtml(last, d);
      WithSectionAppends(WithSections(h, init, d), last, d);
      AppendAssoc(h, a, b);
    }
  }

  /** `WithSections` over eight sections, written out section by section. */
  lemma WithEightSections(h: string, ss: seq<Section>, d: ResponseData)
    requires |ss| == 8
    ensures WithSections(h, ss, d) ==
      WithSection(WithSection(WithSection(WithSection(WithSection(WithSection(WithSection(WithSection(
        h, ss[0], d), ss[1], d), ss[2], d), ss[3], d), ss[4], d), ss[5], d), ss[6], d), ss[7], d)
  {
    SlicesStart(h, ss, d);
    SlicesStep(h, ss, 0, d);
    SlicesStep(h, ss, 1, d);
    SlicesStep(h, ss, 2, d);
    SlicesStep(h, ss, 3, d);
    SlicesStep(h, ss, 4, d);
    SlicesStep(h, ss, 5, d);
    SlicesStep(h, ss, 6, d);
    SlicesStep(h, ss, 7, d);
    TakeAll(ss);
  }

  lemma SlicesStart(h: string, ss: seq<Section>, d: ResponseData)
    ensures WithSections(h, ss[..0], d) == h
  {
    assert ss[..0] == [];
  }

  lemma TakeAll<T>(s: seq<T>)
    ensures s[..|s|] == s
  {
  }

  /** The first `k + 1` sections of `ss` are the first `k` followed by section `k`. */
  lemma SlicesStep(h: string, ss: seq<Section>, k: nat, d: ResponseData)
    requires k < |ss|
    ensures WithSections(h, ss[..k + 1], d) == WithSection(WithSections(h, ss[..k], d), ss[k], d)
  {
    assert ss[..k + 1][..k] == ss[..k];
  }

  /** `WithSections` over `SectionOrder`, written out section by section. */
  lemma SectionOrderUnrolled(h: string, d: ResponseData)
    ensures WithSections(h, SectionOrder, d) ==
      WithSection(WithSection(WithSection(WithSection(WithSection(WithSection(WithSection(WithSection(
        h, Advice, d), Duration, d), Features, d), Technologies, d), Budget, d), Terms, d),
        Summary, d), Questions, d)
  {
    WithEightSections(h, SectionOrder, d);
  }

  /** `SectionOrder` as the sections appended one at a time. */
  lemma SectionOrderBuilt()
    ensures [] + [Advice] + [Duration] + [Features] + [Technologies] + [Budget] + [Terms] + [Summary] + [Questions]
            == SectionOrder
  {
  }

  /** One `foreach` loop of `formatResponse`: appends an `<li>` per item, in order. */
  method AppendItems(html: string, items: seq<string>) returns (out: string)
    ensures out == html + ItemsHtml(items)
  {
    out := html;
    for i := 0 to |items|
      invariant out == html + ItemsHtml(items[..i])
    {
      assert items[..i + 1][..i] == items[..i];
      out := out + "<li>" + items[i] + "</li>";
    }
    assert items[..|items|] == items;
  }

  /** One commented block of `formatResponse`: appends the markup of section `s` of
      record `d` to `html`, one piece at a time as the controller does. */
  method AppendSection(html: string, s: Section, d: ResponseData) returns (out: string)
    ensures out == WithSection(html, s, d)
  {
    match s
    case Advice =>
      out := html + "<div class='advice-section'>";
      out := out + "<h3>💡 Project Recommendations</h3>";
      out := out + "<p>" + d.advice + "</p>";
      out := out + "</div>";
    case Duration =>
      out := html + "<div class='duration-section'>";
      out := out + "<h3>⏱️ Development Timeline</h3>";
      out := out + "<p>" + d.duration + "</p>";
      out := out + "</div>";
    case Features =>
      out := html + "<div class='features-section'>";
      out := out + "<h3>✨ Recommended Features</h3>";
      out := out + "<ul>";
      out := AppendItems(out, d.features);
      out := out + "</ul>";
      out := out + "</div>";
    case Technologies =>
      out := html + "<div class='tech-section'>";
      out := out + "<h3>🔧 Technology Stack</h3>";
      out := out + "<ul>";
      out := AppendItems(out, d.technologies);
      out := out + "</ul>";
      out := out + "</div>";
    case Budget =>
      out := html + "<div class='budget-section'>";
      out := out + "<h3>💰 Investment Overview</h3>";
      out := out + BudgetBoxOpen;
      out := out + d.budget;
      out := out + "</div>";
      out := out + "</div>";
    case Terms =>
      out := html + "<div class='terms-section'>";
      out := out + "<h3>📋 Project Terms</h3>";
      out := out + "<ul>";
      out := AppendItems(out, d.terms);
      out := out + "</ul>";
      out := out + "</div>";
    case Summary =>
      out := html + SummaryOpen;
      out := out + "<h3>📋 Executive Summary</h3>";
      out := out + "<p><strong>" + d.summary + "</strong></p>";
      out := out + "</div>";
    case Questions =>
      out := html + "<div class='questions-section'>";
      out := out + "<h3>❓ Next Steps</h3>";
      ghost var before := out;
      out := out + QuestionsIntro;
      out := out + "<ul>";
      AppendAssoc(before, QuestionsIntro, "<ul>");
      out := AppendItems(out, d.questions);
      out := out + "</ul>";
      out := out + "</div>";
  }

  /** `formatResponse`: opens the `response-content` div, appends the eight sections in
      order and closes the div. It produces exactly `Render(d)`. */
  method FormatResponse(d: ResponseData) returns (html: string)
    ensures html == Render(d)
  {
    html := ResponseOpen;
    html := AppendSection(html, Advice, d);
    html := AppendSection(html, Duration, d);
    html := AppendSection(html, Features, d);
    html := AppendSection(html, Technologies, d);
    html := AppendSection(html, Budget, d);
    html := AppendSection(html, Terms, d);
    html := AppendSection(html, Summary, d);
    html := AppendSection(html, Questions, d);
    SectionOrderUnrolled(ResponseOpen, d);
    html := html + "</div>";
  }

  /** The response is the `response-content` div holding the sections in `SectionOrder`:
      advice, duration, features, technologies, budget, terms, summary, questions. */
  lemma RenderIsSectionsInOrder(d: ResponseData)
    ensures Render(d) == ResponseOpen + SectionsHtml(SectionOrder, d) + "</div>"
  {
    WithSectionsAppends(ResponseOpen, SectionOrder, d);
  }

  /** Every rendered response opens the `response-content` div and closes it at the end. */
  lemma RenderIsWrapped(d: ResponseData)
    ensures |Render(d)| >= |ResponseOpen| + 6
    ensures Render(d)[..|ResponseOpen|] == ResponseOpen
    ensures Render(d)[|Render(d)| - 6..] == "</div>"
  {
    RenderIsSectionsInOrder(d);
    Enclosed(ResponseOpen, SectionsHtml(SectionOrder, d), "</div>");
  }

  lemma Enclosed(a: string, m: string, b: string)
    ensures (a + m + b)[..|a|] == a
    ensures (a + m + b)[|a + m + b| - |b|..] == b
  {
  }

  /** The items of a response are the four lists of its record, in template order. */
  lemma ListedItemsInOrder(d: ResponseData)
    ensures ListedItems(SectionOrder, d) == d.features + d.technologies + d.terms + d.questions
  {
    var s0: seq<Section> := [];
    var s1 := s0 + [Advice];
    var s2 := s1 + [Duration];
    var s3 := s2 + [Features];
    var s4 := s3 + [Technologies];
    var s5 := s4 + [Budget];
    var s6 := s5 + [Terms];
    var s7 := s6 + [Summary];
    var s8 := s7 + [Questions];
    var f, t, g, q := d.features, d.technologies, d.terms, d.questions;
    ListedItemsSnoc(s0, Advice, d);
    ListedItemsSnoc(s1, Duration, d);
    ListedItemsSnoc(s2, Features, d);
    ListedItemsSnoc(s3, Technologies, d);
    ListedItemsSnoc(s4, Budget, d);
    ListedItemsSnoc(s5, Terms, d);
    ListedItemsSnoc(s6, Summary, d);
    ListedItemsSnoc(s7, Questions, d);
    NoItemsAdded([]);
    NoItemsAdded(f + t);
    NoItemsAdded(f + t + g);
    assert ListedItems(s2, d) == [];
    assert ListedItems(s3, d) == f;
    assert ListedItems(s5, d) == f + t;
    assert ListedItems(s7, d) == f + t + g;
    SectionOrderBuilt();
  }

  lemma NoItemsAdded(xs: seq<string>)
    ensures xs + [] == xs && [] + xs == xs
  {
  }

  /** The items of one more section come after those of the sections before it. */
  lemma ListedItemsSnoc(ss: seq<Section>, s: Section, d: ResponseData)
    ensures ListedItems(ss + [s], d) == ListedItems(ss, d) + SectionItems(s, d)
  {
    assert (ss + [s])[..|ss|] == ss;
  }

  // Reading list items back out of HTML, to show that a list section's `<ul>` body
  // carries exactly its list.

  /** Position of the first '<' in `s`, or `|s|` when there is none. */
  function LtIndex(s: string): (j: nat)
    ensures j <= |s|
    ensures forall i :: 0 <= i < j ==> s[i] != '<'
    ensures j < |s| ==> s[j] == '<'
  {
    if s == [] || s[0] == '<' then 0 else 1 + LtIndex(s[1..])
  }

  /** Reads a sequence of `<li>text</li>` items whose texts contain no '<'. */
  function ParseItems(s: string): Option<seq<string>>
    decreases |s|
  {
    if s == [] then Some([])
    else if |s| >= 4 && s[..4] == "<li>" then
      var body := s[4..];
      var j := LtIndex(body);
      if j + 5 <= |body| && body[j..j + 5] == "</li>" then
        match ParseItems(body[j + 5..])
        case Some(rest) => Some([body[..j]] + rest)
        case None => None
      else None
    else None
  }

  /** Rendering a list item by item is the same as rendering its first item before the rest. */
  lemma {:induction false} ItemsHtmlCons(x: string, ys: seq<string>)
    ensures ItemsHtml([x] + ys) == Li(x) + ItemsHtml(ys)
  {
    if ys != [] {
      var zs := [x] + ys;
      assert zs[..|zs| - 1] == [x] + ys[..|ys| - 1];
      ItemsHtmlCons(x, ys[..|ys| - 1]);
    } else {
      assert [x][..0] == [];
    }
  }

  /** The first '<' of `x + rest` is the first byte of `rest` when `x` has none. */
  lemma {:induction false} LtIndexAfter(x: string, rest: string)
    requires '<' !in x && rest != [] && rest[0] == '<'
    ensures LtIndex(x + rest) == |x|
  {
    if x != [] {
      assert (x + rest)[1..] == x[1..] + rest;
      LtIndexAfter(x[1..], rest);
    }
  }

  /** Reading one item off the front of `Li(x) + r`. */
  lemma ParseItemsCons(x: string, r: string)
    requires '<' !in x
    ensures ParseItems(Li(x) + r) ==
      match ParseItems(r)
      case Some(rest) => Some([x] + rest)
      case None => None
  {
    var s := Li(x) + r;
    assert s[..4] == "<li>";
    var body := s[4..];
    assert body == x + ("</li>" + r);
    LtIndexAfter(x, "</li>" + r);
    assert body[|x|..|x| + 5] == "</li>";
    assert body[..|x|] == x;
    assert body[|x| + 5..] == r;
  }

  /** The four sections that show a list. */
  predicate IsList(s: Section)
  {
    s.Features? || s.Technologies? || s.Terms? || s.Questions?
  }

  /** A list section's markup is a head ending in `<ul>`, the list items of its own list,
      then `</ul></div>`; reading that body back gives exactly the list, in order.
      Paragraph sections list nothing. */
  lemma ListSectionReadsBack(s: Section, d: ResponseData)
    requires forall x <- SectionItems(s, d) :: '<' !in x
    ensures !IsList(s) ==> SectionItems(s, d) == []
    ensures IsList(s) ==>
      var head := Opening(s) + Heading(s) + Lead(s);
      |head| >= 4 && head[|head| - 4..] == "<ul>" &&
      SectionHtml(s, d) == head + ItemsHtml(SectionItems(s, d)) + "</ul>" + "</div>"
    ensures ParseItems(ItemsHtml(SectionItems(s, d))) == Some(SectionItems(s, d))
  {
    ItemsRoundTrip(SectionItems(s, d));
    if IsList(s) {
      var o, t := Opening(s), Heading(s);
      DropEmptyFront(o, t, Lead(s), Content(s, d), Tail(s), "</div>");
      if s.Questions? {
        AppendAssoc(o + t, QuestionsIntro, "<ul>");
        Enclosed(o + t + QuestionsIntro, "", "<ul>");
      } else {
        Enclosed(o + t, "", "<ul>");
      }
    }
  }

  lemma DropEmptyFront(o: string, t: string, l: string, c: string, e: string, z: string)
    ensures "" + o + t + l + c + e + z == o + t + l + c + e + z
  {
    assert "" + o == o;
  }

  /** The list items of `items` read back as exactly `items`, in order: the `<ul>` body
      of a list section holds one `<li>` per entry and nothing else. */
  lemma {:induction false} ItemsRoundTrip(items: seq<string>)
    requires forall x <- items :: '<' !in x
    ensures ParseItems(ItemsHtml(items)) == Some(items)
  {
    if items != [] {
      var x, ys := items[0], items[1..];
      assert [x] + ys == items;
      ItemsHtmlCons(x, ys);
      ItemsRoundTrip(ys);
      ParseItemsCons(x, ItemsHtml(ys));
    }
  }
}
