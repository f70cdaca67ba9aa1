/**
 * What the resume renderer produces, as a function of the record and of the
 * generation date shown in the footer: the document as a sequence of pieces, and
 * the HTML string that is their text.
 */
module RenderSpec {
  import opened Wrappers
  import opened ResumeData
  import opened Markup

  /** The one gating rule for sections: the section's top-level key is present and truthy. */
  predicate Shown(r: Resume, k: Section) {
    match k
    case Education => NonEmpty(r.education)
    case Coursework => r.coursework.Some? && r.coursework.value.Truthy()
    case Skills => NonEmpty(r.skills)
    case Experience => NonEmpty(r.experience)
    case Projects => NonEmpty(r.projects)
    case Hobbies => NonEmpty(r.hobbies)
  }

  /** The sections that are shown, in the fixed order of the document. */
  function ShownSections(r: Resume): seq<Section> {
    (if Shown(r, Education) then [Education] else [])
    + (if Shown(r, Coursework) then [Coursework] else [])
    + (if Shown(r, Skills) then [Skills] else [])
    + (if Shown(r, Experience) then [Experience] else [])
    + (if Shown(r, Projects) then [Projects] else [])
    + (if Shown(r, Hobbies) then [Hobbies] else [])
  }

  // ---------------------------------------------------------------- head and header

  /** The text of the title: the name when the key is present, otherwise "Resume". */
  function TitleName(r: Resume): string {
    r.name.GetOr("Resume")
  }

  function Head(r: Resume): seq<Piece> {
    Wrap(DocOpen, TitleName(r), HeadClose)
  }

  /** A contact link: the href and the label both carry the same value. */
  function Link(open: Piece, target: string, close: Piece): seq<Piece> {
    Row2(open, target, LinkMid, target, close)
  }

  function Email(r: Resume): seq<Piece> {
    if Filled(r.email) then Wrap(EmailOpen, r.email.value, EmailClose) else []
  }

  function LinkedIn(r: Resume): seq<Piece> {
    if Filled(r.linkedin) then Link(LinkedInOpen, r.linkedin.value, LinkedInClose) else []
  }

  function GitHub(r: Resume): seq<Piece> {
    if Filled(r.github) then Link(GitHubOpen, r.github.value, LinkClose) else []
  }

  function Website(r: Resume): seq<Piece> {
    if Filled(r.website) then Link(WebsiteOpen, r.website.value, LinkClose) else []
  }

  /** The contact line: each filled field appends its own fragment, in a fixed order. */
  function Contact(r: Resume): seq<Piece> {
    Email(r) + LinkedIn(r) + GitHub(r) + Website(r)
  }

  function Updated(r: Resume): seq<Piece> {
    if Filled(r.lastUpdated) then Wrap(UpdatedOpen, r.lastUpdated.value, UpdatedClose) else []
  }

  function Header(r: Resume): seq<Piece> {
    Wrap(NameOpen, r.name.GetOr(""), NameClose)
    + [ContactOpen] + Contact(r) + [ContactClose]
    + Updated(r)
    + [HeaderClose]
  }

  // ---------------------------------------------------------------- shared blocks

  /** A list item of a details list. */
  function Detail(s: string): seq<Piece> {
    Wrap(DetailOpen, s, ItemClose)
  }

  /** The details list of a job, project or hobby: only when the list is non-empty. */
  function Details(o: Option<seq<string>>): seq<Piece> {
    if NonEmpty(o) then [DetailsOpen] + ConcatMap(o.value, Detail) + [DetailsClose] else []
  }

  /** A pill holding one course or one skill. */
  function Pill(s: string): seq<Piece> {
    Wrap(PillOpen, s, SpanClose)
  }

  // ---------------------------------------------------------------- education

  function Gpa(gpa: Option<string>): seq<Piece> {
    if Filled(gpa) then Wrap(GpaOpen, gpa.value, GpaClose) else []
  }

  /** An education-like entry: a titled, dated header row, a second line and an optional GPA. */
  function EduEntry(title: string, date: string, line: string, gpa: Option<string>): seq<Piece> {
    Row3(EduOpen, title, DateCell, date, DegreeOpen, line, LineClose)
    + Gpa(gpa)
    + [BlockClose]
  }

  function EducationBlock(e: EducationEntry): seq<Piece> {
    EduEntry(e.institution.GetOr(""), e.date.GetOr(""), e.degree.GetOr(""), e.gpa)
  }

  function HighSchoolBlock(h: HighSchoolEntry): seq<Piece> {
    EduEntry(h.name.GetOr(""), h.date.GetOr(""), h.note.GetOr(""), h.gpa)
  }

  function HighSchoolPart(o: Option<HighSchoolEntry>): seq<Piece> {
    if o.Some? && o.value.Truthy() then HighSchoolBlock(o.value) else []
  }

  function EducationPart(r: Resume): seq<Piece> {
    if Shown(r, Education) then
      [EducationHeading] + ConcatMap(r.education.value, EducationBlock)
      + HighSchoolPart(r.highSchool)
      + [SectionClose]
    else []
  }

  // ---------------------------------------------------------------- coursework

  function Award(s: string): seq<Piece> {
    Wrap(AwardOpen, s, ItemClose)
  }

  function Courses(o: Option<seq<string>>): seq<Piece> {
    if NonEmpty(o) then
      [CategoryDiv] + [SkillsList] + ConcatMap(o.value, Pill) + [ListClose] + [BlockClose]
    else []
  }

  function Awards(o: Option<seq<string>>): seq<Piece> {
    if NonEmpty(o) then
      [AwardsHeading] + [AwardsOpen] + ConcatMap(o.value, Award) + [AwardsClose]
    else []
  }

  function CourseworkPart(r: Resume): seq<Piece> {
    if Shown(r, Coursework) then
      [CourseworkHeading] + Courses(r.coursework.value.courses) + Awards(r.coursework.value.awards)
      + [SectionClose]
    else []
  }

  // ---------------------------------------------------------------- skills

  function SkillBlock(c: SkillCategory): seq<Piece> {
    Wrap(CategoryOpen, c.category.GetOr(""), CategoryClose)
    + ConcatMap(ListOr(c.items), Pill)
    + [ListClose] + [BlockClose]
  }

  function SkillsPart(r: Resume): seq<Piece> {
    if Shown(r, Skills) then
      [SkillsHeading] + ConcatMap(r.skills.value, SkillBlock) + [SectionClose]
    else []
  }

  // ---------------------------------------------------------------- experience

  function JobBlock(j: Job): seq<Piece> {
    Row3(JobOpen, j.organization.GetOr(""), DateCell, j.date.GetOr(""), RoleOpen, j.role.GetOr(""), LineClose)
    + Details(j.details)
    + [BlockClose]
  }

  function ExperiencePart(r: Resume): seq<Piece> {
    if Shown(r, Experience) then
      [ExperienceHeading] + ConcatMap(r.experience.value, JobBlock) + [SectionClose]
    else []
  }

  // ---------------------------------------------------------------- projects

  function Technology(s: string): seq<Piece> {
    Wrap(TechItemOpen, s, SpanClose)
  }

  function Technologies(o: Option<seq<string>>): seq<Piece> {
    if NonEmpty(o) then [TechOpen] + ConcatMap(o.value, Technology) + [ListClose] else []
  }

  function ProjectBlock(p: Project): seq<Piece> {
    Row2(ProjectOpen, p.name.GetOr(""), DateCell, p.date.GetOr(""), ProjectHeaderClose)
    + Technologies(p.technologies)
    + Details(p.details)
    + [BlockClose]
  }

  function ProjectsPart(r: Resume): seq<Piece> {
    if Shown(r, Projects) then
      [ProjectsHeading] + ConcatMap(r.projects.value, ProjectBlock) + [SectionClose]
    else []
  }

  // ---------------------------------------------------------------- hobbies

  function HobbyDate(o: Option<string>): seq<Piece> {
    if Filled(o) then Wrap(HobbyDateOpen, o.value, HobbyDateClose) else []
  }

  /** The header row of a hobby: the name, then the date span only when the date is filled. */
  function HobbyHeader(h: Hobby): seq<Piece> {
    Wrap(HobbyOpen, h.name.GetOr(""), HobbyNameClose) + HobbyDate(h.date) + [HobbyHeaderClose]
  }

  function HobbyBlock(h: Hobby): seq<Piece> {
    HobbyHeader(h)
    + Details(h.details)
    + [BlockClose]
  }

  function HobbiesPart(r: Resume): seq<Piece> {
    if Shown(r, Hobbies) then
      [HobbiesHeading] + ConcatMap(r.hobbies.value, HobbyBlock) + [SectionClose]
    else []
  }

  // ---------------------------------------------------------------- the document

  function Footer(generatedOn: string): seq<Piece> {
    Wrap(FooterOpen, generatedOn, FooterClose) + [DocClose]
  }

  /** The sections between the header and the footer, in their fixed order. */
  function Body(r: Resume): seq<Piece> {
    EducationPart(r) + CourseworkPart(r) + SkillsPart(r) + ExperiencePart(r) + ProjectsPart(r)
    + HobbiesPart(r)
  }

  function Document(r: Resume, generatedOn: string): seq<Piece> {
    Head(r) + Header(r) + Body(r) + Footer(generatedOn)
  }

  /** The HTML string the renderer returns. */
  function Html(r: Resume, generatedOn: string): string {
    Text(Document(r, generatedOn))
  }
}
