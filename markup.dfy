/**
 * The HTML document as a sequence of pieces: fixed markup fragments (`Lit`) and
 * values copied from the record (`Val`). `Text` flattens a sequence of pieces into
 * the string the renderer writes; no piece is escaped.
 */
module Markup {

  /** The sections of the resume, in the order the renderer emits them. */
  datatype Section = Education | Coursework | Skills | Experience | Projects | Hobbies

  /** The repeated items of the document's lists. */
  datatype Item = DetailItem | PillItem | AwardItem | TechnologyItem

  /** The optional parts of the header and of an entry. */
  datatype Block =
    | EmailField | LinkedInField | GitHubField | WebsiteField | UpdatedLine
    | GpaLine | CourseList | AwardList | DetailList | TechnologyList | HobbyDateSpan

  /**
   * What a markup fragment marks: a section heading, the start of one entry of a
   * section, of one list item, of an optional part, or nothing in particular.
   */
  datatype Role =
    | Plain
    | Heading(section: Section)
    | EntryStart(entry: Section)
    | ItemStart(item: Item)
    | BlockStart(block: Block)

  /**
   * A piece of the document: a markup fragment with its role, or a value inserted
   * verbatim.
   */
  datatype Piece = Lit(role: Role, text: string) | Val(text: string)

  /**
   * The fixed style sheet of the document head: a constant block of CSS without any
   * logic, left unspecified here.
   */
  const StyleSheet: string

  // The document head and the header
  const DocType: string := "<!DOCTYPE html>"
  const DocOpen: Piece :=
    Lit(Plain, DocType + "\n<html lang=\"en\">\n<head>\n    <meta charset=\"UTF-8\">\n    <meta name=\"viewport\" content=\"width=device-width, initial-scale=1.0\">\n    <title>")
  const HeadClose: Piece :=
    Lit(Plain, " - Resume</title>\n" + StyleSheet + "</head>\n<body>\n    <div class=\"header\">\n")
  const NameOpen: Piece := Lit(Plain, "        <h1>")
  const NameClose: Piece := Lit(Plain, "</h1>\n")
  const ContactOpen: Piece := Lit(Plain, "        <div class=\"contact-info\">\n")
  const ContactClose: Piece := Lit(Plain, "\n        </div>\n")
  const EmailOpen: Piece := Lit(BlockStart(EmailField), "            <span>")
  const EmailClose: Piece := Lit(Plain, "</span> | \n")
  const LinkedInOpen: Piece :=
    Lit(BlockStart(LinkedInField), "            <span><a href='https://")
  const LinkedInClose: Piece := Lit(Plain, "</a></span> | \n")
  const GitHubOpen: Piece := Lit(BlockStart(GitHubField), "            <span><a href='https://")
  const WebsiteOpen: Piece := Lit(BlockStart(WebsiteField), " | <span><a href='")
  const LinkMid: Piece := Lit(Plain, "'>")
  const LinkClose: Piece := Lit(Plain, "</a></span>")
  const UpdatedOpen: Piece := Lit(BlockStart(UpdatedLine), "        <div><small>Last Updated: ")
  const UpdatedClose: Piece := Lit(Plain, "</small></div>\n")
  const HeaderClose: Piece := Lit(Plain, "    </div>\n")

  // Section frames
  const EducationHeading: Piece :=
    Lit(Heading(Education), "    <div class=\"section\">\n        <h2 class=\"section-title\">Education</h2>\n")
  const CourseworkHeading: Piece :=
    Lit(Heading(Coursework), "    <div class=\"section\">\n        <h2 class=\"section-title\">Coursework</h2>\n")
  const SkillsHeading: Piece :=
    Lit(Heading(Skills), "    <div class=\"section\">\n        <h2 class=\"section-title\">Skills</h2>\n")
  const ExperienceHeading: Piece :=
    Lit(Heading(Experience), "    <div class=\"section\">\n        <h2 class=\"section-title\">Experience</h2>\n")
  const ProjectsHeading: Piece :=
    Lit(Heading(Projects), "    <div class=\"section\">\n        <h2 class=\"section-title\">Projects</h2>\n")
  const HobbiesHeading: Piece :=
    Lit(Heading(Hobbies), "    <div class=\"section\">\n        <h2 class=\"section-title\">Interests & Activities</h2>\n")
  const SectionClose: Piece := Lit(Plain, "    </div>\n")
  const BlockClose: Piece := Lit(Plain, "        </div>\n")

  // Education entries
  const EduOpen: Piece :=
    Lit(EntryStart(Education), "        <div class=\"education\">\n            <div class=\"edu-header\">\n                <span class=\"institution\">")
  const DateCell: Piece := Lit(Plain, "</span>\n                <span class=\"date\">")
  const DegreeOpen: Piece :=
    Lit(Plain, "</span>\n            </div>\n            <div class=\"degree\">")
  const LineClose: Piece := Lit(Plain, "</div>\n")
  const GpaOpen: Piece :=
    Lit(BlockStart(GpaLine), "            <div class=\"description\">\n                <p>GPA: ")
  const GpaClose: Piece := Lit(Plain, "</p>\n            </div>\n")

  // Coursework and skills
  const CategoryDiv: Piece :=
    Lit(BlockStart(CourseList), "        <div class=\"skill-category\">\n")
  const SkillsList: Piece := Lit(Plain, "            <div class=\"skills-list\">\n")
  const PillOpen: Piece := Lit(ItemStart(PillItem), "                <span class=\"skill\">")
  const SpanClose: Piece := Lit(Plain, "</span>\n")
  const ListClose: Piece := Lit(Plain, "            </div>\n")
  const AwardsHeading: Piece := Lit(BlockStart(AwardList), "        <h3>Awards</h3>\n")
  const AwardsOpen: Piece := Lit(Plain, "        <ul class=\"details\">\n")
  const AwardOpen: Piece := Lit(ItemStart(AwardItem), "            <li>")
  const ItemClose: Piece := Lit(Plain, "</li>\n")
  const AwardsClose: Piece := Lit(Plain, "        </ul>\n")
  const CategoryOpen: Piece :=
    Lit(EntryStart(Skills), "        <div class=\"skill-category\">\n            <h3>")
  const CategoryClose: Piece := Lit(Plain, "</h3>\n            <div class=\"skills-list\">\n")

  // Experience and projects
  const JobOpen: Piece :=
    Lit(EntryStart(Experience), "        <div class=\"job\">\n            <div class=\"job-header\">\n                <span class=\"organization\">")
  const RoleOpen: Piece :=
    Lit(Plain, "</span>\n            </div>\n            <div class=\"role\">")
  const DetailsOpen: Piece := Lit(BlockStart(DetailList), "            <ul class=\"details\">\n")
  const DetailOpen: Piece := Lit(ItemStart(DetailItem), "                <li>")
  const DetailsClose: Piece := Lit(Plain, "            </ul>\n")
  const ProjectOpen: Piece :=
    Lit(EntryStart(Projects), "        <div class=\"project\">\n            <div class=\"project-header\">\n                <span class=\"project-name\">")
  const ProjectHeaderClose: Piece := Lit(Plain, "</span>\n            </div>\n")
  const TechOpen: Piece :=
    Lit(BlockStart(TechnologyList), "            <div class=\"technologies\">\n")
  const TechItemOpen: Piece :=
    Lit(ItemStart(TechnologyItem), "                <span class=\"technology\">")

  // Interests and activities
  const HobbyOpen: Piece :=
    Lit(EntryStart(Hobbies), "        <div class=\"hobby\">\n            <div class=\"hobby-header\">\n                <span class=\"hobby-name\"><strong>")
  const HobbyNameClose: Piece := Lit(Plain, "</strong></span>\n                ")
  const HobbyDateOpen: Piece := Lit(BlockStart(HobbyDateSpan), "<span class='date'>")
  const HobbyDateClose: Piece := Lit(Plain, "</span>")
  const HobbyHeaderClose: Piece := Lit(Plain, "\n            </div>\n")

  // The footer
  const FooterOpen: Piece :=
    Lit(Plain, "    <div class=\"footer\">\n        <p><small>Generated on ")
  const FooterClose: Piece := Lit(Plain, "</small></p>\n    </div>\n")
  const DocClose: Piece := Lit(Plain, "</body>\n</html>")

  /** A single value piece. */
  function V(s: string): seq<Piece> {
    [Val(s)]
  }

  /** A value between two markup fragments. */
  function Wrap(open: Piece, s: string, close: Piece): seq<Piece> {
    [open] + V(s) + [close]
  }

  /** A header row: two values, each followed by a markup fragment. */
  function Row2(a: Piece, x: string, b: Piece, y: string, c: Piece): seq<Piece> {
    Wrap(a, x, b) + V(y) + [c]
  }

  /** A header row and a second line: three values between markup fragments. */
  function Row3(a: Piece, x: string, b: Piece, y: string, c: Piece, z: string, d: Piece): seq<Piece> {
    Row2(a, x, b, y, c) + V(z) + [d]
  }

  /** The characters of a sequence of pieces: each piece's text, in order, unchanged. */
  function Text(ps: seq<Piece>): string {
    if ps == [] then "" else Text(ps[..|ps| - 1]) + ps[|ps| - 1].text
  }

  /** The headings of a sequence of pieces, in document order. */
  function Outline(ps: seq<Piece>): seq<Section> {
    if ps == [] then []
    else
      Outline(ps[..|ps| - 1])
      + match ps[|ps| - 1] case Lit(Heading(k), _) => [k] case _ => []
  }

  /** The pieces of every element of `xs`, rendered by `block`, one after another in order. */
  function ConcatMap<T>(xs: seq<T>, block: T -> seq<Piece>): seq<Piece> {
    if xs == [] then [] else ConcatMap(xs[..|xs| - 1], block) + block(xs[|xs| - 1])
  }

  lemma AppendAssoc<T>(a: seq<T>, b: seq<T>, c: seq<T>)
    ensures (a + b) + c == a + (b + c)
  {
  }

  /** Flattening distributes over concatenation. */
  lemma {:induction false} TextAppend(a: seq<Piece>, b: seq<Piece>)
    ensures Text(a + b) == Text(a) + Text(b)
    decreases |b|
  {
    if b == [] {
      assert a + b == a;
    } else {
      var b' := b[..|b| - 1];
      assert (a + b)[..|a + b| - 1] == a + b';
      TextAppend(a, b');
      AppendAssoc(Text(a), Text(b'), b[|b| - 1].text);
    }
  }

  lemma WrapText(a: Piece, s: string, b: Piece)
    ensures Text(Wrap(a, s, b)) == a.text + s + b.text
  {
    TextAppend([a] + V(s), [b]);
    TextAppend([a], V(s));
  }

  lemma Row2Text(a: Piece, x: string, b: Piece, y: string, c: Piece)
    ensures Text(Row2(a, x, b, y, c)) == a.text + x + b.text + y + c.text
  {
    WrapText(a, x, b);
    TextAppend(Wrap(a, x, b) + V(y), [c]);
    TextAppend(Wrap(a, x, b), V(y));
  }

  lemma Row3Text(a: Piece, x: string, b: Piece, y: string, c: Piece, z: string, d: Piece)
    ensures Text(Row3(a, x, b, y, c, z, d)) == a.text + x + b.text + y + c.text + z + d.text
  {
    Row2Text(a, x, b, y, c);
    TextAppend(Row2(a, x, b, y, c) + V(z), [d]);
    TextAppend(Row2(a, x, b, y, c), V(z));
  }

  /** Appending the text of `block` to the text of `doc` gives the text of `doc + block`. */
  lemma Emit(prefix: string, out: string, doc: seq<Piece>, block: seq<Piece>)
    requires out == prefix + Text(doc)
    ensures out + Text(block) == prefix + Text(doc + block)
  {
    TextAppend(doc, block);
    AppendAssoc(prefix, Text(doc), Text(block));
  }

  lemma TextOne(p: Piece)
    ensures Text([p]) == p.text
  {
    assert [p][..0] == [];
  }

  lemma NoText(prefix: string, block: seq<Piece>)
    requires block == []
    ensures prefix + Text(block) == prefix
  {
  }

  /** Skipping a block that renders to nothing keeps the text in step with the pieces. */
  lemma EmitEmpty(prefix: string, out: string, doc: seq<Piece>, block: seq<Piece>)
    requires out == prefix + Text(doc) && block == []
    ensures out == prefix + Text(doc + block)
  {
    assert doc + block == doc;
  }

  lemma EmitLit(prefix: string, out: string, doc: seq<Piece>, p: Piece)
    requires out == prefix + Text(doc)
    ensures out + p.text == prefix + Text(doc + [p])
  {
    Emit(prefix, out, doc, [p]);
  }

  lemma EmitWrap(prefix: string, out: string, doc: seq<Piece>, a: Piece, s: string, b: Piece)
    requires out == prefix + Text(doc)
    ensures out + (a.text + s + b.text) == prefix + Text(doc + Wrap(a, s, b))
  {
    WrapText(a, s, b);
    Emit(prefix, out, doc, Wrap(a, s, b));
  }

  lemma EmitRow2(prefix: string, out: string, doc: seq<Piece>,
                 a: Piece, x: string, b: Piece, y: string, c: Piece)
    requires out == prefix + Text(doc)
    ensures out + (a.text + x + b.text + y + c.text) == prefix + Text(doc + Row2(a, x, b, y, c))
  {
    Row2Text(a, x, b, y, c);
    Emit(prefix, out, doc, Row2(a, x, b, y, c));
  }

  /** The pieces before some point flatten to a prefix of the whole text. */
  lemma TextPrefix(a: seq<Piece>, b: seq<Piece>)
    requires a <= b
    ensures Text(a) <= Text(b)
  {
    assert b == a + b[|a|..];
    TextAppend(a, b[|a|..]);
  }

  lemma PrefixExtend<T>(a: seq<T>, b: seq<T>, c: seq<T>)
    requires a <= b
    ensures a <= b + c
  {
    assert (b + c)[..|a|] == b[..|a|];
  }

  lemma PrefixAfter<T>(a: seq<T>, b: seq<T>, c: seq<T>)
    requires b <= c
    ensures a + b <= a + c
  {
    assert (a + c)[..|a + b|] == a + c[..|b|];
  }

  /** No piece of `ps` is a section heading. */
  predicate NoHeading(ps: seq<Piece>) {
    forall p | p in ps :: !(p.Lit? && p.role.Heading?)
  }

  lemma NoHeadingAppend(a: seq<Piece>, b: seq<Piece>)
    requires NoHeading(a) && NoHeading(b)
    ensures NoHeading(a + b)
  {
  }

  lemma {:induction false} NoHeadingOutline(ps: seq<Piece>)
    requires NoHeading(ps)
    ensures Outline(ps) == []
    decreases |ps|
  {
    if ps != [] {
      var init := ps[..|ps| - 1];
      assert forall p | p in init :: p in ps;
      assert ps[|ps| - 1] in ps;
      NoHeadingOutline(init);
    }
  }

  /** Concatenated blocks without headings hold no heading. */
  lemma {:induction false} ConcatMapNoHeading<T>(xs: seq<T>, block: T -> seq<Piece>)
    requires forall x | x in xs :: NoHeading(block(x))
    ensures NoHeading(ConcatMap(xs, block))
    decreases |xs|
  {
    if xs != [] {
      var init := xs[..|xs| - 1];
      assert forall x | x in init :: x in xs;
      assert xs[|xs| - 1] in xs;
      ConcatMapNoHeading(init, block);
    }
  }

  lemma {:induction false} OutlineAppend(a: seq<Piece>, b: seq<Piece>)
    ensures Outline(a + b) == Outline(a) + Outline(b)
    decreases |b|
  {
    if b == [] {
      assert a + b == a;
    } else {
      var b' := b[..|b| - 1];
      assert (a + b)[..|a + b| - 1] == a + b';
      OutlineAppend(a, b');
    }
  }

  /** Rendering one more element appends exactly that element's block. */
  lemma ConcatMapSnoc<T>(xs: seq<T>, i: nat, block: T -> seq<Piece>)
    requires i < |xs|
    ensures ConcatMap(xs[..i + 1], block) == ConcatMap(xs[..i], block) + block(xs[i])
  {
    assert xs[..i + 1][..i] == xs[..i];
  }

  /** 1 when `p` is a markup fragment with role `role`, 0 otherwise. */
  function Mark(p: Piece, role: Role): nat {
    if p.Lit? && p.role == role then 1 else 0
  }

  /** The number of markup fragments of `ps` that have role `role`. */
  function Count(ps: seq<Piece>, role: Role): nat {
    if ps == [] then 0 else Count(ps[..|ps| - 1], role) + Mark(ps[|ps| - 1], role)
  }

  lemma {:induction false} CountAppend(a: seq<Piece>, b: seq<Piece>, role: Role)
    ensures Count(a + b, role) == Count(a, role) + Count(b, role)
    decreases |b|
  {
    if b == [] {
      assert a + b == a;
    } else {
      var b' := b[..|b| - 1];
      assert (a + b)[..|a + b| - 1] == a + b';
      CountAppend(a, b', role);
    }
  }

  lemma CountOne(p: Piece, role: Role)
    ensures Count([p], role) == Mark(p, role)
  {
    assert [p][..0] == [];
  }

  lemma WrapCount(a: Piece, s: string, b: Piece, role: Role)
    ensures Count(Wrap(a, s, b), role) == Mark(a, role) + Mark(b, role)
  {
    CountAppend([a] + V(s), [b], role);
    CountAppend([a], V(s), role);
    CountOne(a, role);
    CountOne(Val(s), role);
    CountOne(b, role);
  }

  lemma Row2Count(a: Piece, x: string, b: Piece, y: string, c: Piece, role: Role)
    ensures Count(Row2(a, x, b, y, c), role) == Mark(a, role) + Mark(b, role) + Mark(c, role)
  {
    WrapCount(a, x, b, role);
    CountAppend(Wrap(a, x, b) + V(y), [c], role);
    CountAppend(Wrap(a, x, b), V(y), role);
    CountOne(Val(y), role);
    CountOne(c, role);
  }

  lemma Row3Count(a: Piece, x: string, b: Piece, y: string, c: Piece, z: string, d: Piece, role: Role)
    ensures Count(Row3(a, x, b, y, c, z, d), role)
            == Mark(a, role) + Mark(b, role) + Mark(c, role) + Mark(d, role)
  {
    Row2Count(a, x, b, y, c, role);
    CountAppend(Row2(a, x, b, y, c) + V(z), [d], role);
    CountAppend(Row2(a, x, b, y, c), V(z), role);
    CountOne(Val(z), role);
    CountOne(d, role);
  }

  /** When every block holds `c` fragments of a role, the concatenation holds `c` per element. */
  lemma {:induction false} ConcatMapCount<T>(xs: seq<T>, block: T -> seq<Piece>, role: Role, c: nat)
    requires forall x | x in xs :: Count(block(x), role) == c
    ensures Count(ConcatMap(xs, block), role) == c * |xs|
    decreases |xs|
  {
    if xs != [] {
      var init, last := xs[..|xs| - 1], xs[|xs| - 1];
      assert forall x | x in init :: x in xs;
      assert last in xs;
      ConcatMapCount(init, block, role, c);
      CountAppend(ConcatMap(init, block), block(last), role);
      MulSucc(c, |init|);
    }
  }

  lemma MulSucc(c: nat, n: nat)
    ensures c * n + c == c * (n + 1)
  {
  }

  /**
   * A list of values, each wrapped in the same item fragments: one item opener per
   * value, and no fragment of any other role beside the plain closers.
   */
  lemma ItemsCount(xs: seq<string>, item: string -> seq<Piece>, open: Piece, close: Piece, role: Role)
    requires forall s :: item(s) == Wrap(open, s, close)
    requires open.Lit? && Mark(close, role) == 0
    ensures Count(ConcatMap(xs, item), role) == if open.role == role then |xs| else 0
  {
    var c := Mark(open, role);
    forall s | s in xs
      ensures Count(item(s), role) == c
    {
      WrapCount(open, s, close, role);
    }
    if open.role == role {
      ConcatMapCount(xs, item, role, 1);
    } else {
      ConcatMapCount(xs, item, role, 0);
    }
  }

  /** A framed list: an opener, the blocks of the elements and a closer. */
  lemma FramedCount(open: Piece, body: seq<Piece>, close: Piece, role: Role)
    ensures Count([open] + body + [close], role) == Mark(open, role) + Count(body, role) + Mark(close, role)
  {
    CountAppend([open] + body, [close], role);
    CountAppend([open], body, role);
    CountOne(open, role);
    CountOne(close, role);
  }

  /**
   * The rendering of element `i` sits, unchanged, right after the renderings of the
   * elements before it: blocks come in input order.
   */
  lemma {:induction false} ConcatMapBlockAt<T>(xs: seq<T>, block: T -> seq<Piece>, i: nat)
    requires i < |xs|
    ensures ConcatMap(xs[..i], block) + block(xs[i]) <= ConcatMap(xs, block)
    decreases |xs|
  {
    if i < |xs| - 1 {
      var init := xs[..|xs| - 1];
      assert init[..i] == xs[..i] && init[i] == xs[i];
      ConcatMapBlockAt(init, block, i);
    } else {
      assert xs[..|xs| - 1] == xs[..i];
    }
  }

  /** A list framed by two openers and a closer. */
  lemma Framed2Count(a: Piece, b: Piece, body: seq<Piece>, close: Piece, role: Role)
    ensures Count([a] + [b] + body + [close], role)
            == Mark(a, role) + Mark(b, role) + Count(body, role) + Mark(close, role)
  {
    CountAppend([a] + [b] + body, [close], role);
    CountAppend([a] + [b], body, role);
    CountAppend([a], [b], role);
    CountOne(a, role);
    CountOne(b, role);
    CountOne(close, role);
  }

  /** The same, inside a framed list: the opener, the earlier blocks, then block `i`. */
  lemma FramedBlockAt<T>(open: Piece, xs: seq<T>, block: T -> seq<Piece>, i: nat, rest: seq<Piece>)
    requires i < |xs|
    ensures [open] + ConcatMap(xs[..i], block) + block(xs[i]) <= [open] + ConcatMap(xs, block) + rest
  {
    var before := ConcatMap(xs[..i], block) + block(xs[i]);
    ConcatMapBlockAt(xs, block, i);
    PrefixAfter([open], before, ConcatMap(xs, block));
    AppendAssoc([open], ConcatMap(xs[..i], block), block(xs[i]));
    PrefixExtend([open] + before, [open] + ConcatMap(xs, block), rest);
  }

  /** The same, after any fixed prefix of pieces: the prefix, the earlier blocks, then block `i`. */
  lemma PrefixedBlockAt<T>(pre: seq<Piece>, xs: seq<T>, block: T -> seq<Piece>, i: nat, rest: seq<Piece>)
    requires i < |xs|
    ensures pre + ConcatMap(xs[..i], block) + block(xs[i]) <= pre + ConcatMap(xs, block) + rest
  {
    var before := ConcatMap(xs[..i], block) + block(xs[i]);
    ConcatMapBlockAt(xs, block, i);
    PrefixAfter(pre, before, ConcatMap(xs, block));
    AppendAssoc(pre, ConcatMap(xs[..i], block), block(xs[i]));
    PrefixExtend(pre + before, pre + ConcatMap(xs, block), rest);
  }

  /**
   * Every piece is copied character for character into the text, at the offset given
   * by the pieces before it; in particular every `Val` piece, which is how each record
   * value enters the document.
   */
  lemma ValueVerbatim(ps: seq<Piece>, i: nat)
    requires i < |ps|
    ensures Text(ps[..i]) + ps[i].text <= Text(ps)
  {
    var pre, rest := ps[..i + 1], ps[i + 1..];
    assert ps == pre + rest;
    TextAppend(pre, rest);
    assert pre[..|pre| - 1] == ps[..i];
    assert Text(pre) == Text(ps[..i]) + ps[i].text;
  }
}
