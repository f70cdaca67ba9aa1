/**
 * How many entries, items and optional blocks the rendered document holds. Every
 * entry, item and optional block begins with a fragment of a role of its own (an
 * entry, item or block opener), so counting the fragments of a role counts what was
 * rendered; the closing tags are plain fragments and are not counted.
 */
module RenderCounts {
  import opened Wrappers
  import opened ResumeData
  import opened Markup
  import opened RenderSpec

  function Flag(b: bool): nat {
    if b then 1 else 0
  }

  // ---------------------------------------------------------------- optional blocks

  /** The GPA block appears exactly when the GPA is filled. */
  lemma GpaCount(gpa: Option<string>, role: Role)
    requires role != Plain
    ensures Count(Gpa(gpa), role) == Flag(Filled(gpa) && role == BlockStart(GpaLine))
  {
    if Filled(gpa) {
      WrapCount(GpaOpen, gpa.value, GpaClose, role);
    }
  }

  /** The date span of a hobby appears exactly when the date is filled. */
  lemma HobbyDateCount(date: Option<string>, role: Role)
    requires role != Plain
    ensures Count(HobbyDate(date), role) == Flag(Filled(date) && role == BlockStart(HobbyDateSpan))
  {
    if Filled(date) {
      WrapCount(HobbyDateOpen, date.value, HobbyDateClose, role);
    }
  }

  /** A details list appears exactly when the list is non-empty, with one item per detail. */
  lemma DetailsCount(o: Option<seq<string>>, role: Role)
    requires role != Plain
    ensures Count(Details(o), role)
            == Flag(NonEmpty(o) && role == BlockStart(DetailList))
               + (if role == ItemStart(DetailItem) then |ListOr(o)| else 0)
  {
    if NonEmpty(o) {
      ItemsCount(o.value, Detail, DetailOpen, ItemClose, role);
      FramedCount(DetailsOpen, ConcatMap(o.value, Detail), DetailsClose, role);
    }
  }

  /** A technologies block appears exactly when the list is non-empty, with one item per technology. */
  lemma TechnologiesCount(o: Option<seq<string>>, role: Role)
    requires role != Plain
    ensures Count(Technologies(o), role)
            == Flag(NonEmpty(o) && role == BlockStart(TechnologyList))
               + (if role == ItemStart(TechnologyItem) then |ListOr(o)| else 0)
  {
    if NonEmpty(o) {
      ItemsCount(o.value, Technology, TechItemOpen, SpanClose, role);
      FramedCount(TechOpen, ConcatMap(o.value, Technology), ListClose, role);
    }
  }

  /** The course list appears exactly when there are courses, with one pill per course. */
  lemma CoursesCount(o: Option<seq<string>>, role: Role)
    requires role != Plain
    ensures Count(Courses(o), role)
            == Flag(NonEmpty(o) && role == BlockStart(CourseList))
               + (if role == ItemStart(PillItem) then |ListOr(o)| else 0)
  {
    if NonEmpty(o) {
      var pills := ConcatMap(o.value, Pill);
      ItemsCount(o.value, Pill, PillOpen, SpanClose, role);
      Framed2Count(CategoryDiv, SkillsList, pills, ListClose, role);
      CountAppend([CategoryDiv] + [SkillsList] + pills + [ListClose], [BlockClose], role);
      CountOne(BlockClose, role);
    }
  }

  /** The awards list appears exactly when there are awards, with one item per award. */
  lemma AwardsCount(o: Option<seq<string>>, role: Role)
    requires role != Plain
    ensures Count(Awards(o), role)
            == Flag(NonEmpty(o) && role == BlockStart(AwardList))
               + (if role == ItemStart(AwardItem) then |ListOr(o)| else 0)
  {
    if NonEmpty(o) {
      var items := ConcatMap(o.value, Award);
      ItemsCount(o.value, Award, AwardOpen, ItemClose, role);
      Framed2Count(AwardsHeading, AwardsOpen, items, AwardsClose, role);
    }
  }

  // ---------------------------------------------------------------- one entry

  /** An education entry, or the high school entry: one entry opener and the optional GPA block. */
  lemma EduEntryCount(title: string, date: string, line: string, gpa: Option<string>, role: Role)
    requires role != Plain
    ensures Count(EduEntry(title, date, line, gpa), role)
            == Flag(role == EntryStart(Education)) + Count(Gpa(gpa), role)
  {
    var row := Row3(EduOpen, title, DateCell, date, DegreeOpen, line, LineClose);
    Row3Count(EduOpen, title, DateCell, date, DegreeOpen, line, LineClose, role);
    CountAppend(row + Gpa(gpa), [BlockClose], role);
    CountAppend(row, Gpa(gpa), role);
    CountOne(BlockClose, role);
  }

  /** A skill category: one entry opener and one pill per item. */
  lemma SkillBlockCount(c: SkillCategory, role: Role)
    requires role != Plain
    ensures Count(SkillBlock(c), role)
            == Flag(role == EntryStart(Skills)) + (if role == ItemStart(PillItem) then |ListOr(c.items)| else 0)
  {
    var head := Wrap(CategoryOpen, c.category.GetOr(""), CategoryClose);
    var pills := ConcatMap(ListOr(c.items), Pill);
    WrapCount(CategoryOpen, c.category.GetOr(""), CategoryClose, role);
    ItemsCount(ListOr(c.items), Pill, PillOpen, SpanClose, role);
    CountAppend(head + pills + [ListClose], [BlockClose], role);
    CountAppend(head + pills, [ListClose], role);
    CountAppend(head, pills, role);
    CountOne(ListClose, role);
    CountOne(BlockClose, role);
  }

  /** A job: one entry opener and its details list. */
  lemma JobBlockCount(j: Job, role: Role)
    requires role != Plain
    ensures Count(JobBlock(j), role) == Flag(role == EntryStart(Experience)) + Count(Details(j.details), role)
  {
    var row := Row3(JobOpen, j.organization.GetOr(""), DateCell, j.date.GetOr(""), RoleOpen,
                    j.role.GetOr(""), LineClose);
    Row3Count(JobOpen, j.organization.GetOr(""), DateCell, j.date.GetOr(""), RoleOpen,
              j.role.GetOr(""), LineClose, role);
    CountAppend(row + Details(j.details), [BlockClose], role);
    CountAppend(row, Details(j.details), role);
    CountOne(BlockClose, role);
  }

  /** A project: one entry opener, its technologies block and its details list. */
  lemma ProjectBlockCount(p: Project, role: Role)
    requires role != Plain
    ensures Count(ProjectBlock(p), role)
            == Flag(role == EntryStart(Projects)) + Count(Technologies(p.technologies), role)
               + Count(Details(p.details), role)
  {
    var row := Row2(ProjectOpen, p.name.GetOr(""), DateCell, p.date.GetOr(""), ProjectHeaderClose);
    Row2Count(ProjectOpen, p.name.GetOr(""), DateCell, p.date.GetOr(""), ProjectHeaderClose, role);
    CountAppend(row + Technologies(p.technologies) + Details(p.details), [BlockClose], role);
    CountAppend(row + Technologies(p.technologies), Details(p.details), role);
    CountAppend(row, Technologies(p.technologies), role);
    CountOne(BlockClose, role);
  }

  /** A hobby: one entry opener, its date span and its details list. */
  lemma HobbyBlockCount(h: Hobby, role: Role)
    requires role != Plain
    ensures Count(HobbyBlock(h), role)
            == Flag(role == EntryStart(Hobbies)) + Count(HobbyDate(h.date), role)
               + Count(Details(h.details), role)
  {
    var name := Wrap(HobbyOpen, h.name.GetOr(""), HobbyNameClose);
    WrapCount(HobbyOpen, h.name.GetOr(""), HobbyNameClose, role);
    CountAppend(name + HobbyDate(h.date), [HobbyHeaderClose], role);
    CountAppend(name, HobbyDate(h.date), role);
    CountOne(HobbyHeaderClose, role);
    CountAppend(HobbyHeader(h) + Details(h.details), [BlockClose], role);
    CountAppend(HobbyHeader(h), Details(h.details), role);
    CountOne(BlockClose, role);
  }

  // ---------------------------------------------------------------- one section

  /**
   * A shown coursework section holds its heading, the course list and the awards list,
   * each only when non-empty; a hidden one holds nothing.
   */
  lemma CourseworkCount(r: Resume, role: Role)
    requires role != Plain
    ensures Count(CourseworkPart(r), role)
            == if Shown(r, Coursework)
               then Flag(role == Heading(Coursework)) + Count(Courses(r.coursework.value.courses), role)
                    + Count(Awards(r.coursework.value.awards), role)
               else 0
  {
    if Shown(r, Coursework) {
      var cw := r.coursework.value;
      FramedCount(CourseworkHeading, Courses(cw.courses) + Awards(cw.awards), SectionClose, role);
      AppendAssoc([CourseworkHeading], Courses(cw.courses), Awards(cw.awards));
      CountAppend(Courses(cw.courses), Awards(cw.awards), role);
    }
  }

  lemma EducationListEntries(xs: seq<EducationEntry>, role: Role)
    requires role.EntryStart?
    ensures Count(ConcatMap(xs, EducationBlock), role) == if role == EntryStart(Education) then |xs| else 0
  {
    var c := Flag(role == EntryStart(Education));
    forall e | e in xs
      ensures Count(EducationBlock(e), role) == c
    {
      EduEntryCount(e.institution.GetOr(""), e.date.GetOr(""), e.degree.GetOr(""), e.gpa, role);
      GpaCount(e.gpa, role);
    }
    if role == EntryStart(Education) {
      ConcatMapCount(xs, EducationBlock, role, 1);
    } else {
      ConcatMapCount(xs, EducationBlock, role, 0);
    }
  }

  /** The high school entry is rendered exactly when the high school record is truthy. */
  lemma HighSchoolEntries(o: Option<HighSchoolEntry>, role: Role)
    requires role.EntryStart?
    ensures Count(HighSchoolPart(o), role) == Flag(role == EntryStart(Education) && o.Some? && o.value.Truthy())
  {
    if o.Some? && o.value.Truthy() {
      var h := o.value;
      EduEntryCount(h.name.GetOr(""), h.date.GetOr(""), h.note.GetOr(""), h.gpa, role);
      GpaCount(h.gpa, role);
    }
  }

  /**
   * The education section holds one entry per element of the list, and one more for
   * a truthy high school; none when the list is absent or empty.
   */
  lemma EducationEntries(r: Resume, role: Role)
    requires role.EntryStart?
    ensures Count(EducationPart(r), role)
            == if role == EntryStart(Education) && Shown(r, Education)
               then |r.education.value| + Flag(r.highSchool.Some? && r.highSchool.value.Truthy())
               else 0
  {
    if Shown(r, Education) {
      var entries := ConcatMap(r.education.value, EducationBlock);
      var hs := HighSchoolPart(r.highSchool);
      EducationListEntries(r.education.value, role);
      HighSchoolEntries(r.highSchool, role);
      FramedCount(EducationHeading, entries + hs, SectionClose, role);
      AppendAssoc([EducationHeading], entries, hs);
      CountAppend(entries, hs, role);
    }
  }

  lemma CourseworkEntries(r: Resume, role: Role)
    requires role.EntryStart?
    ensures Count(CourseworkPart(r), role) == 0
  {
    CourseworkCount(r, role);
    if Shown(r, Coursework) {
      CoursesCount(r.coursework.value.courses, role);
      AwardsCount(r.coursework.value.awards, role);
    }
  }

  /** The skills section holds one entry per category. */
  lemma SkillsEntries(r: Resume, role: Role)
    requires role.EntryStart?
    ensures Count(SkillsPart(r), role) == if role == EntryStart(Skills) then |ListOr(r.skills)| else 0
  {
    if Shown(r, Skills) {
      var xs := r.skills.value;
      var c := Flag(role == EntryStart(Skills));
      forall x | x in xs
        ensures Count(SkillBlock(x), role) == c
      {
        SkillBlockCount(x, role);
      }
      if role == EntryStart(Skills) {
        ConcatMapCount(xs, SkillBlock, role, 1);
      } else {
        ConcatMapCount(xs, SkillBlock, role, 0);
      }
      FramedCount(SkillsHeading, ConcatMap(xs, SkillBlock), SectionClose, role);
    }
  }

  /** The experience section holds one entry per job. */
  lemma ExperienceEntries(r: Resume, role: Role)
    requires role.EntryStart?
    ensures Count(ExperiencePart(r), role) == if role == EntryStart(Experience) then |ListOr(r.experience)| else 0
  {
    if Shown(r, Experience) {
      var xs := r.experience.value;
      var c := Flag(role == EntryStart(Experience));
      forall x | x in xs
        ensures Count(JobBlock(x), role) == c
      {
        JobBlockCount(x, role);
        DetailsCount(x.details, role);
      }
      if role == EntryStart(Experience) {
        ConcatMapCount(xs, JobBlock, role, 1);
      } else {
        ConcatMapCount(xs, JobBlock, role, 0);
      }
      FramedCount(ExperienceHeading, ConcatMap(xs, JobBlock), SectionClose, role);
    }
  }

  /** The projects section holds one entry per project. */
  lemma ProjectsEntries(r: Resume, role: Role)
    requires role.EntryStart?
    ensures Count(ProjectsPart(r), role) == if role == EntryStart(Projects) then |ListOr(r.projects)| else 0
  {
    if Shown(r, Projects) {
      var xs := r.projects.value;
      var c := Flag(role == EntryStart(Projects));
      forall x | x in xs
        ensures Count(ProjectBlock(x), role) == c
      {
        ProjectBlockCount(x, role);
        TechnologiesCount(x.technologies, role);
        DetailsCount(x.details, role);
      }
      if role == EntryStart(Projects) {
        ConcatMapCount(xs, ProjectBlock, role, 1);
      } else {
        ConcatMapCount(xs, ProjectBlock, role, 0);
      }
      FramedCount(ProjectsHeading, ConcatMap(xs, ProjectBlock), SectionClose, role);
    }
  }

  /** The interests section holds one entry per hobby. */
  lemma HobbiesEntries(r: Resume, role: Role)
    requires role.EntryStart?
    ensures Count(HobbiesPart(r), role) == if role == EntryStart(Hobbies) then |ListOr(r.hobbies)| else 0
  {
    if Shown(r, Hobbies) {
      var xs := r.hobbies.value;
      var c := Flag(role == EntryStart(Hobbies));
      forall x | x in xs
        ensures Count(HobbyBlock(x), role) == c
      {
        HobbyBlockCount(x, role);
        HobbyDateCount(x.date, role);
        DetailsCount(x.details, role);
      }
      if role == EntryStart(Hobbies) {
        ConcatMapCount(xs, HobbyBlock, role, 1);
      } else {
        ConcatMapCount(xs, HobbyBlock, role, 0);
      }
      FramedCount(HobbiesHeading, ConcatMap(xs, HobbyBlock), SectionClose, role);
    }
  }

  // ---------------------------------------------------------------- the whole document

  lemma LinkCount(open: Piece, target: string, close: Piece, role: Role)
    requires role != Plain
    ensures Count(Link(open, target, close), role) == Mark(open, role) + Mark(close, role)
  {
    Row2Count(open, target, LinkMid, target, close, role);
  }

  /** Each contact field renders its fragment exactly when the field is filled. */
  lemma ContactCount(r: Resume, role: Role)
    requires role != Plain
    ensures Count(Contact(r), role)
            == Flag(Filled(r.email) && role == BlockStart(EmailField))
               + Flag(Filled(r.linkedin) && role == BlockStart(LinkedInField))
               + Flag(Filled(r.github) && role == BlockStart(GitHubField))
               + Flag(Filled(r.website) && role == BlockStart(WebsiteField))
  {
    EmailCount(r, role);
    LinkedInCount(r, role);
    GitHubCount(r, role);
    WebsiteCount(r, role);
    CountAppend(Email(r) + LinkedIn(r) + GitHub(r), Website(r), role);
    CountAppend(Email(r) + LinkedIn(r), GitHub(r), role);
    CountAppend(Email(r), LinkedIn(r), role);
  }

  lemma EmailCount(r: Resume, role: Role)
    requires role != Plain
    ensures Count(Email(r), role) == Flag(Filled(r.email) && role == BlockStart(EmailField))
  {
    if Filled(r.email) {
      WrapCount(EmailOpen, r.email.value, EmailClose, role);
    }
  }

  lemma LinkedInCount(r: Resume, role: Role)
    requires role != Plain
    ensures Count(LinkedIn(r), role) == Flag(Filled(r.linkedin) && role == BlockStart(LinkedInField))
  {
    if Filled(r.linkedin) {
      LinkCount(LinkedInOpen, r.linkedin.value, LinkedInClose, role);
    }
  }

  lemma GitHubCount(r: Resume, role: Role)
    requires role != Plain
    ensures Count(GitHub(r), role) == Flag(Filled(r.github) && role == BlockStart(GitHubField))
  {
    if Filled(r.github) {
      LinkCount(GitHubOpen, r.github.value, LinkClose, role);
    }
  }

  lemma WebsiteCount(r: Resume, role: Role)
    requires role != Plain
    ensures Count(Website(r), role) == Flag(Filled(r.website) && role == BlockStart(WebsiteField))
  {
    if Filled(r.website) {
      LinkCount(WebsiteOpen, r.website.value, LinkClose, role);
    }
  }

  /** The header holds the contact fields and the last-updated line only when it is filled. */
  lemma HeaderCount(r: Resume, role: Role)
    requires role != Plain
    ensures Count(Header(r), role)
            == Count(Contact(r), role) + Flag(Filled(r.lastUpdated) && role == BlockStart(UpdatedLine))
  {
    var w := Wrap(NameOpen, r.name.GetOr(""), NameClose);
    WrapCount(NameOpen, r.name.GetOr(""), NameClose, role);
    if Filled(r.lastUpdated) {
      WrapCount(UpdatedOpen, r.lastUpdated.value, UpdatedClose, role);
    }
    CountAppend(w + [ContactOpen] + Contact(r) + [ContactClose] + Updated(r), [HeaderClose], role);
    CountAppend(w + [ContactOpen] + Contact(r) + [ContactClose], Updated(r), role);
    CountAppend(w + [ContactOpen] + Contact(r), [ContactClose], role);
    CountAppend(w + [ContactOpen], Contact(r), role);
    CountAppend(w, [ContactOpen], role);
    CountOne(ContactOpen, role);
    CountOne(ContactClose, role);
    CountOne(HeaderClose, role);
  }

  /** The head, the header and the footer hold no entry. */
  lemma FrameEntries(r: Resume, d: string, role: Role)
    requires role.EntryStart?
    ensures Count(Head(r), role) == 0 && Count(Header(r), role) == 0 && Count(Footer(d), role) == 0
  {
    WrapCount(DocOpen, TitleName(r), HeadClose, role);
    HeaderCount(r, role);
    ContactCount(r, role);
    WrapCount(FooterOpen, d, FooterClose, role);
    CountAppend(Wrap(FooterOpen, d, FooterClose), [DocClose], role);
    CountOne(DocClose, role);
  }

  lemma BodyCount(r: Resume, role: Role)
    ensures Count(Body(r), role)
            == Count(EducationPart(r), role) + Count(CourseworkPart(r), role)
               + Count(SkillsPart(r), role) + Count(ExperiencePart(r), role)
               + Count(ProjectsPart(r), role) + Count(HobbiesPart(r), role)
  {
    var e, c, s, x, p, h := EducationPart(r), CourseworkPart(r), SkillsPart(r),
      ExperiencePart(r), ProjectsPart(r), HobbiesPart(r);
    CountAppend(e + c + s + x + p, h, role);
    CountAppend(e + c + s + x, p, role);
    CountAppend(e + c + s, x, role);
    CountAppend(e + c, s, role);
    CountAppend(e, c, role);
  }

  lemma DocumentCount(r: Resume, d: string, role: Role)
    ensures Count(Document(r, d), role)
            == Count(Head(r), role) + Count(Header(r), role) + Count(Body(r), role) + Count(Footer(d), role)
  {
    CountAppend(Head(r) + Header(r) + Body(r), Footer(d), role);
    CountAppend(Head(r) + Header(r), Body(r), role);
    CountAppend(Head(r), Header(r), role);
  }

  /** The number of entries the record asks each section to show. */
  function EntryCount(r: Resume, k: Section): nat {
    match k
    case Education =>
      if Shown(r, Education)
      then |r.education.value| + Flag(r.highSchool.Some? && r.highSchool.value.Truthy())
      else 0
    case Coursework => 0
    case Skills => |ListOr(r.skills)|
    case Experience => |ListOr(r.experience)|
    case Projects => |ListOr(r.projects)|
    case Hobbies => |ListOr(r.hobbies)|
  }

  /**
   * The document holds exactly one entry per element of each section's list (and one
   * for a truthy high school, in a shown education section), and no entry of any
   * section anywhere else.
   */
  lemma DocumentEntries(r: Resume, d: string, k: Section)
    ensures Count(Document(r, d), EntryStart(k)) == EntryCount(r, k)
  {
    DocumentCount(r, d, EntryStart(k));
    FrameEntries(r, d, EntryStart(k));
    BodyEntries(r, k);
  }

  lemma BodyEntries(r: Resume, k: Section)
    ensures Count(Body(r), EntryStart(k)) == EntryCount(r, k)
  {
    var role := EntryStart(k);
    BodyCount(r, role);
    EducationEntries(r, role);
    CourseworkEntries(r, role);
    SkillsEntries(r, role);
    ExperienceEntries(r, role);
    ProjectsEntries(r, role);
    HobbiesEntries(r, role);
  }
}
