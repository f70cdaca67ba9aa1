/**
 * What the rendered document promises: its fixed frame, the title and the name line,
 * which sections appear and in which order, how many entries and items each holds,
 * when the optional parts appear, where the high school entry goes, and the literal
 * text of the contact line.
 */
module RenderProperties {
  import opened Wrappers
  import opened ResumeData
  import opened Markup
  import opened RenderSpec

  // ---------------------------------------------------------------- the frame

  lemma DocumentText(r: Resume, d: string)
    ensures Html(r, d) == Text(Head(r)) + Text(Header(r)) + Text(Body(r)) + Text(Footer(d))
  {
    TextAppend(Head(r) + Header(r) + Body(r), Footer(d));
    TextAppend(Head(r) + Header(r), Body(r));
    TextAppend(Head(r), Header(r));
  }

  /** The head opens with the doctype, then the title: the name, or "Resume" without a name key. */
  lemma HeadStart(r: Resume)
    ensures DocType <= Text(Head(r))
    ensures DocOpen.text + (if r.name.Some? then r.name.value else "Resume") + " - Resume</title>\n"
            <= Text(Head(r))
  {
    var line := " - Resume</title>\n";
    WrapText(DocOpen, TitleName(r), HeadClose);
    PrefixExtend(line, line + StyleSheet, "</head>\n<body>\n    <div class=\"header\">\n");
    PrefixAfter(DocOpen.text + TitleName(r), line, HeadClose.text);
    PrefixExtend(DocType, DocType, DocOpen.text[|DocType|..]);
    assert DocType <= DocOpen.text;
    PrefixExtend(DocType, DocOpen.text, TitleName(r) + HeadClose.text);
    AppendAssoc(DocOpen.text, TitleName(r), HeadClose.text);
  }

  /** The header opens with the h1 line: the name, or nothing without a name key. */
  lemma HeaderStart(r: Resume)
    ensures "        <h1>" + (if r.name.Some? then r.name.value else "") + "</h1>\n" <= Text(Header(r))
  {
    var w := Wrap(NameOpen, r.name.GetOr(""), NameClose);
    WrapText(NameOpen, r.name.GetOr(""), NameClose);
    PrefixExtend(w, w, [ContactOpen]);
    PrefixExtend(w, w + [ContactOpen], Contact(r));
    PrefixExtend(w, w + [ContactOpen] + Contact(r), [ContactClose]);
    PrefixExtend(w, w + [ContactOpen] + Contact(r) + [ContactClose], Updated(r));
    PrefixExtend(w, w + [ContactOpen] + Contact(r) + [ContactClose] + Updated(r), [HeaderClose]);
    TextPrefix(w, Header(r));
  }

  /** A prefix of the head is a prefix of the document. */
  lemma HeadPrefix(r: Resume, d: string, s: string)
    requires s <= Text(Head(r))
    ensures s <= Html(r, d)
  {
    DocumentText(r, d);
    PrefixExtend(s, Text(Head(r)), Text(Header(r)));
    PrefixExtend(s, Text(Head(r)) + Text(Header(r)), Text(Body(r)));
    PrefixExtend(s, Text(Head(r)) + Text(Header(r)) + Text(Body(r)), Text(Footer(d)));
  }

  /** A prefix of the header follows the head in the document. */
  lemma HeaderPrefix(r: Resume, d: string, s: string)
    requires s <= Text(Header(r))
    ensures Text(Head(r)) + s <= Html(r, d)
  {
    DocumentText(r, d);
    PrefixAfter(Text(Head(r)), s, Text(Header(r)));
    PrefixExtend(Text(Head(r)) + s, Text(Head(r)) + Text(Header(r)), Text(Body(r)));
    PrefixExtend(Text(Head(r)) + s, Text(Head(r)) + Text(Header(r)) + Text(Body(r)), Text(Footer(d)));
  }

  /**
   * The document opens with the doctype and the title, which shows the name, or the
   * word "Resume" when the record has no name key; right after the head comes the h1,
   * which shows the name, or nothing when there is no name key.
   */
  lemma TitleAndName(r: Resume, d: string)
    ensures DocType <= Html(r, d)
    ensures DocOpen.text + (if r.name.Some? then r.name.value else "Resume") + " - Resume</title>\n"
            <= Html(r, d)
    ensures Text(Head(r)) + ("        <h1>" + (if r.name.Some? then r.name.value else "") + "</h1>\n")
            <= Html(r, d)
  {
    HeadStart(r);
    HeaderStart(r);
    HeadPrefix(r, d, DocType);
    HeadPrefix(r, d, DocOpen.text + (if r.name.Some? then r.name.value else "Resume") + " - Resume</title>\n");
    HeaderPrefix(r, d, "        <h1>" + (if r.name.Some? then r.name.value else "") + "</h1>\n");
  }

  /**
   * The document ends with the footer, which shows the generation date, and the closing
   * tags; everything before the footer depends on the record alone, so two renderings
   * of one record differ only in the date.
   */
  lemma DocumentEnd(r: Resume, d: string)
    ensures Html(r, d)
            == Text(Head(r)) + Text(Header(r)) + Text(Body(r))
               + (FooterOpen.text + d + FooterClose.text + "</body>\n</html>")
  {
    DocumentText(r, d);
    WrapText(FooterOpen, d, FooterClose);
    TextAppend(Wrap(FooterOpen, d, FooterClose), [DocClose]);
    TextOne(DocClose);
  }

  // ---------------------------------------------------------------- sections: gating and order

  lemma DetailsNoHeading(o: Option<seq<string>>)
    ensures NoHeading(Details(o))
  {
    if NonEmpty(o) {
      ConcatMapNoHeading(o.value, Detail);
    }
  }

  lemma EduEntryNoHeading(title: string, date: string, line: string, gpa: Option<string>)
    ensures NoHeading(EduEntry(title, date, line, gpa))
  {
  }

  lemma SkillBlockNoHeading(c: SkillCategory)
    ensures NoHeading(SkillBlock(c))
  {
    ConcatMapNoHeading(ListOr(c.items), Pill);
  }

  lemma JobBlockNoHeading(j: Job)
    ensures NoHeading(JobBlock(j))
  {
    DetailsNoHeading(j.details);
  }

  lemma ProjectBlockNoHeading(p: Project)
    ensures NoHeading(ProjectBlock(p))
  {
    if NonEmpty(p.technologies) {
      ConcatMapNoHeading(p.technologies.value, Technology);
    }
    DetailsNoHeading(p.details);
  }

  lemma HobbyBlockNoHeading(h: Hobby)
    ensures NoHeading(HobbyBlock(h))
  {
    DetailsNoHeading(h.details);
  }

  /** A section part is its heading, heading-free entries and the closing tag. */
  lemma FramedOutline(h: Piece, k: Section, entries: seq<Piece>)
    requires h == Lit(Heading(k), h.text) && NoHeading(entries)
    ensures Outline([h] + entries + [SectionClose]) == [k]
  {
    NoHeadingOutline(entries);
    OutlineAppend([h] + entries, [SectionClose]);
    OutlineAppend([h], entries);
  }

  lemma EducationOutline(r: Resume)
    ensures Outline(EducationPart(r)) == if Shown(r, Education) then [Education] else []
  {
    if Shown(r, Education) {
      var entries := ConcatMap(r.education.value, EducationBlock);
      forall e | e in r.education.value
        ensures NoHeading(EducationBlock(e))
      {
        EduEntryNoHeading(e.institution.GetOr(""), e.date.GetOr(""), e.degree.GetOr(""), e.gpa);
      }
      ConcatMapNoHeading(r.education.value, EducationBlock);
      if r.highSchool.Some? && r.highSchool.value.Truthy() {
        var hs := r.highSchool.value;
        EduEntryNoHeading(hs.name.GetOr(""), hs.date.GetOr(""), hs.note.GetOr(""), hs.gpa);
      }
      var rest := entries + HighSchoolPart(r.highSchool);
      FramedOutline(EducationHeading, Education, rest);
      AppendAssoc([EducationHeading], entries, HighSchoolPart(r.highSchool));
    }
  }

  lemma CourseworkOutline(r: Resume)
    ensures Outline(CourseworkPart(r)) == if Shown(r, Coursework) then [Coursework] else []
  {
    if Shown(r, Coursework) {
      var cw := r.coursework.value;
      if NonEmpty(cw.courses) {
        ConcatMapNoHeading(cw.courses.value, Pill);
      }
      if NonEmpty(cw.awards) {
        ConcatMapNoHeading(cw.awards.value, Award);
      }
      var rest := Courses(cw.courses) + Awards(cw.awards);
      FramedOutline(CourseworkHeading, Coursework, rest);
      AppendAssoc([CourseworkHeading], Courses(cw.courses), Awards(cw.awards));
    }
  }

  lemma SkillsOutline(r: Resume)
    ensures Outline(SkillsPart(r)) == if Shown(r, Skills) then [Skills] else []
  {
    if Shown(r, Skills) {
      forall c | c in r.skills.value
        ensures NoHeading(SkillBlock(c))
      {
        SkillBlockNoHeading(c);
      }
      ConcatMapNoHeading(r.skills.value, SkillBlock);
      FramedOutline(SkillsHeading, Skills, ConcatMap(r.skills.value, SkillBlock));
    }
  }

  lemma ExperienceOutline(r: Resume)
    ensures Outline(ExperiencePart(r)) == if Shown(r, Experience) then [Experience] else []
  {
    if Shown(r, Experience) {
      forall j | j in r.experience.value
        ensures NoHeading(JobBlock(j))
      {
        JobBlockNoHeading(j);
      }
      ConcatMapNoHeading(r.experience.value, JobBlock);
      FramedOutline(ExperienceHeading, Experience, ConcatMap(r.experience.value, JobBlock));
    }
  }

  lemma ProjectsOutline(r: Resume)
    ensures Outline(ProjectsPart(r)) == if Shown(r, Projects) then [Projects] else []
  {
    if Shown(r, Projects) {
      forall p | p in r.projects.value
        ensures NoHeading(ProjectBlock(p))
      {
        ProjectBlockNoHeading(p);
      }
      ConcatMapNoHeading(r.projects.value, ProjectBlock);
      FramedOutline(ProjectsHeading, Projects, ConcatMap(r.projects.value, ProjectBlock));
    }
  }

  lemma HobbiesOutline(r: Resume)
    ensures Outline(HobbiesPart(r)) == if Shown(r, Hobbies) then [Hobbies] else []
  {
    if Shown(r, Hobbies) {
      forall h | h in r.hobbies.value
        ensures NoHeading(HobbyBlock(h))
      {
        HobbyBlockNoHeading(h);
      }
      ConcatMapNoHeading(r.hobbies.value, HobbyBlock);
      FramedOutline(HobbiesHeading, Hobbies, ConcatMap(r.hobbies.value, HobbyBlock));
    }
  }

  lemma BodyOutline(r: Resume)
    ensures Outline(Body(r)) == ShownSections(r)
  {
    EducationOutline(r);
    CourseworkOutline(r);
    SkillsOutline(r);
    ExperienceOutline(r);
    ProjectsOutline(r);
    HobbiesOutline(r);
    var e, c, s, x, p, h := EducationPart(r), CourseworkPart(r), SkillsPart(r),
      ExperiencePart(r), ProjectsPart(r), HobbiesPart(r);
    OutlineAppend(e + c + s + x + p, h);
    OutlineAppend(e + c + s + x, p);
    OutlineAppend(e + c + s, x);
    OutlineAppend(e + c, s);
    OutlineAppend(e, c);
  }

  lemma HeadOutline(r: Resume)
    ensures Outline(Head(r)) == []
  {
    NoHeadingOutline(Head(r));
  }

  lemma ContactNoHeading(r: Resume)
    ensures NoHeading(Contact(r))
  {
    assert NoHeading(Email(r)) && NoHeading(LinkedIn(r)) && NoHeading(GitHub(r)) && NoHeading(Website(r));
    NoHeadingAppend(Email(r), LinkedIn(r));
    NoHeadingAppend(Email(r) + LinkedIn(r), GitHub(r));
    NoHeadingAppend(Email(r) + LinkedIn(r) + GitHub(r), Website(r));
  }

  lemma HeaderOutline(r: Resume)
    ensures Outline(Header(r)) == []
  {
    var w := Wrap(NameOpen, r.name.GetOr(""), NameClose);
    ContactNoHeading(r);
    assert NoHeading(w) && NoHeading([ContactOpen]) && NoHeading(Updated(r));
    NoHeadingAppend(w, [ContactOpen]);
    NoHeadingAppend(w + [ContactOpen], Contact(r));
    NoHeadingAppend(w + [ContactOpen] + Contact(r), [ContactClose]);
    NoHeadingAppend(w + [ContactOpen] + Contact(r) + [ContactClose], Updated(r));
    NoHeadingAppend(w + [ContactOpen] + Contact(r) + [ContactClose] + Updated(r), [HeaderClose]);
    NoHeadingOutline(Header(r));
  }

  lemma FooterOutline(d: string)
    ensures Outline(Footer(d)) == []
  {
    NoHeadingOutline(Footer(d));
  }

  /**
   * The headings of the document are exactly the shown sections, in the fixed order
   * Education, Coursework, Skills, Experience, Projects, Interests & Activities.
   */
  lemma SectionOrder(r: Resume, d: string)
    ensures Outline(Document(r, d)) == ShownSections(r)
  {
    HeadOutline(r);
    HeaderOutline(r);
    FooterOutline(d);
    BodyOutline(r);
    OutlineAppend(Head(r) + Header(r) + Body(r), Footer(d));
    OutlineAppend(Head(r) + Header(r), Body(r));
    OutlineAppend(Head(r), Header(r));
  }

  /** A section's heading is in the document if and only if the section's key is present and truthy. */
  lemma SectionGating(r: Resume, d: string, k: Section)
    ensures k in Outline(Document(r, d)) <==> Shown(r, k)
  {
    SectionOrder(r, d);
    ShownSectionsMember(r, k);
  }

  lemma ShownSectionsMember(r: Resume, k: Section)
    ensures k in ShownSections(r) <==> Shown(r, k)
  {
  }
}
