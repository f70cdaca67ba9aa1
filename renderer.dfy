/**
 * The renderer: it builds the HTML string by appending fragments, section by section,
 * with one loop per list of the record, and is proved to return exactly
 * `Html(r, generatedOn)`.
 *
 * Every method keeps a ghost sequence `doc` of the pieces it has written so far, with
 * `out == html + Text(doc)`; each append is justified by one of the `Emit` lemmas and
 * at the end `doc` is the specified block.
 */
module Renderer {
  import opened Wrappers
  import opened ResumeData
  import opened Markup
  import opened RenderSpec

  /** Appends the contact line: each filled field adds its own fragment. */
  method AppendContact(html: string, r: Resume) returns (out: string)
    ensures out == html + Text(Contact(r))
  {
    out := html;
    if Filled(r.email) {
      WrapText(EmailOpen, r.email.value, EmailClose);
      out := out + (EmailOpen.text + r.email.value + EmailClose.text);
    } else {
      NoText(html, Email(r));
    }
    ghost var doc := Email(r);
    if Filled(r.linkedin) {
      var v := r.linkedin.value;
      EmitRow2(html, out, doc, LinkedInOpen, v, LinkMid, v, LinkedInClose);
      out := out + (LinkedInOpen.text + v + LinkMid.text + v + LinkedInClose.text);
    } else {
      EmitEmpty(html, out, doc, LinkedIn(r));
    }
    doc := doc + LinkedIn(r);
    if Filled(r.github) {
      var v := r.github.value;
      EmitRow2(html, out, doc, GitHubOpen, v, LinkMid, v, LinkClose);
      out := out + (GitHubOpen.text + v + LinkMid.text + v + LinkClose.text);
    } else {
      EmitEmpty(html, out, doc, GitHub(r));
    }
    doc := doc + GitHub(r);
    if Filled(r.website) {
      var v := r.website.value;
      EmitRow2(html, out, doc, WebsiteOpen, v, LinkMid, v, LinkClose);
      out := out + (WebsiteOpen.text + v + LinkMid.text + v + LinkClose.text);
    } else {
      EmitEmpty(html, out, doc, Website(r));
    }
    doc := doc + Website(r);
  }

  /** Appends the header: the name, the contact line and the last-updated line. */
  method AppendHeader(html: string, r: Resume) returns (out: string)
    ensures out == html + Text(Header(r))
  {
    WrapText(NameOpen, r.name.GetOr(""), NameClose);
    out := html + (NameOpen.text + r.name.GetOr("") + NameClose.text);
    ghost var doc := Wrap(NameOpen, r.name.GetOr(""), NameClose);
    EmitLit(html, out, doc, ContactOpen);
    out := out + ContactOpen.text;
    doc := doc + [ContactOpen];
    ghost var mark := out;
    out := AppendContact(out, r);
    Emit(html, mark, doc, Contact(r));
    doc := doc + Contact(r);
    EmitLit(html, out, doc, ContactClose);
    out := out + ContactClose.text;
    doc := doc + [ContactClose];
    if Filled(r.lastUpdated) {
      EmitWrap(html, out, doc, UpdatedOpen, r.lastUpdated.value, UpdatedClose);
      out := out + (UpdatedOpen.text + r.lastUpdated.value + UpdatedClose.text);
    } else {
      EmitEmpty(html, out, doc, Updated(r));
    }
    doc := doc + Updated(r);
    EmitLit(html, out, doc, HeaderClose);
    out := out + HeaderClose.text;
    doc := doc + [HeaderClose];
  }

  /** Appends one education-like entry: an education record or the high school. */
  method AppendEduEntry(html: string, title: string, date: string, line: string, gpa: Option<string>)
    returns (out: string)
    ensures out == html + Text(EduEntry(title, date, line, gpa))
  {
    Row3Text(EduOpen, title, DateCell, date, DegreeOpen, line, LineClose);
    out := html + (EduOpen.text + title + DateCell.text + date + DegreeOpen.text + line + LineClose.text);
    ghost var doc := Row3(EduOpen, title, DateCell, date, DegreeOpen, line, LineClose);
    if Filled(gpa) {
      EmitWrap(html, out, doc, GpaOpen, gpa.value, GpaClose);
      out := out + (GpaOpen.text + gpa.value + GpaClose.text);
    } else {
      EmitEmpty(html, out, doc, Gpa(gpa));
    }
    doc := doc + Gpa(gpa);
    EmitLit(html, out, doc, BlockClose);
    out := out + BlockClose.text;
    doc := doc + [BlockClose];
  }

  /** Appends one education block per entry, in order. */
  method AppendEducationList(html: string, entries: seq<EducationEntry>) returns (out: string)
    ensures out == html + Text(ConcatMap(entries, EducationBlock))
  {
    out := html;
    for i := 0 to |entries|
      invariant out == html + Text(ConcatMap(entries[..i], EducationBlock))
    {
      ConcatMapSnoc(entries, i, EducationBlock);
      Emit(html, out, ConcatMap(entries[..i], EducationBlock), EducationBlock(entries[i]));
      var e := entries[i];
      out := AppendEduEntry(out, e.institution.GetOr(""), e.date.GetOr(""), e.degree.GetOr(""), e.gpa);
    }
    assert entries[..|entries|] == entries;
  }

  /** Appends the education section; the high school entry, if any, follows the entries. */
  method AppendEducation(html: string, r: Resume) returns (out: string)
    ensures out == html + Text(EducationPart(r))
  {
    out := html;
    if NonEmpty(r.education) {
      TextOne(EducationHeading);
      out := out + EducationHeading.text;
      ghost var doc := [EducationHeading];
      ghost var mark := out;
      out := AppendEducationList(out, r.education.value);
      Emit(html, mark, doc, ConcatMap(r.education.value, EducationBlock));
      doc := doc + ConcatMap(r.education.value, EducationBlock);
      if r.highSchool.Some? && r.highSchool.value.Truthy() {
        var hs := r.highSchool.value;
        Emit(html, out, doc, HighSchoolBlock(hs));
        out := AppendEduEntry(out, hs.name.GetOr(""), hs.date.GetOr(""), hs.note.GetOr(""), hs.gpa);
      } else {
        EmitEmpty(html, out, doc, HighSchoolPart(r.highSchool));
      }
      doc := doc + HighSchoolPart(r.highSchool);
      EmitLit(html, out, doc, SectionClose);
      out := out + SectionClose.text;
      doc := doc + [SectionClose];
    }
  }

  /** Appends the course pills of the coursework section when there are courses. */
  method AppendCourses(html: string, courses: Option<seq<string>>) returns (out: string)
    ensures out == html + Text(Courses(courses))
  {
    out := html;
    if NonEmpty(courses) {
      TextOne(CategoryDiv);
      out := out + CategoryDiv.text;
      ghost var doc := [CategoryDiv];
      EmitLit(html, out, doc, SkillsList);
      out := out + SkillsList.text;
      doc := doc + [SkillsList];
      ghost var start := out;
      var items := courses.value;
      for i := 0 to |items|
        invariant out == start + Text(ConcatMap(items[..i], Pill))
      {
        ConcatMapSnoc(items, i, Pill);
        EmitWrap(start, out, ConcatMap(items[..i], Pill), PillOpen, items[i], SpanClose);
        out := out + (PillOpen.text + items[i] + SpanClose.text);
      }
      assert items[..|items|] == items;
      Emit(html, start, doc, ConcatMap(items, Pill));
      doc := doc + ConcatMap(items, Pill);
      EmitLit(html, out, doc, ListClose);
      out := out + ListClose.text;
      doc := doc + [ListClose];
      EmitLit(html, out, doc, BlockClose);
      out := out + BlockClose.text;
      doc := doc + [BlockClose];
    }
  }

  /** Appends the awards list of the coursework section when there are awards. */
  method AppendAwards(html: string, awards: Option<seq<string>>) returns (out: string)
    ensures out == html + Text(Awards(awards))
  {
    out := html;
    if NonEmpty(awards) {
      TextOne(AwardsHeading);
      out := out + AwardsHeading.text;
      ghost var doc := [AwardsHeading];
      EmitLit(html, out, doc, AwardsOpen);
      out := out + AwardsOpen.text;
      doc := doc + [AwardsOpen];
      ghost var start := out;
      var items := awards.value;
      for i := 0 to |items|
        invariant out == start + Text(ConcatMap(items[..i], Award))
      {
        ConcatMapSnoc(items, i, Award);
        EmitWrap(start, out, ConcatMap(items[..i], Award), AwardOpen, items[i], ItemClose);
        out := out + (AwardOpen.text + items[i] + ItemClose.text);
      }
      assert items[..|items|] == items;
      Emit(html, start, doc, ConcatMap(items, Award));
      doc := doc + ConcatMap(items, Award);
      EmitLit(html, out, doc, AwardsClose);
      out := out + AwardsClose.text;
      doc := doc + [AwardsClose];
    }
  }

  method AppendCoursework(html: string, r: Resume) returns (out: string)
    ensures out == html + Text(CourseworkPart(r))
  {
    out := html;
    if r.coursework.Some? && r.coursework.value.Truthy() {
      var cw := r.coursework.value;
      TextOne(CourseworkHeading);
      out := out + CourseworkHeading.text;
      ghost var doc := [CourseworkHeading];
      ghost var mark := out;
      out := AppendCourses(out, cw.courses);
      Emit(html, mark, doc, Courses(cw.courses));
      doc := doc + Courses(cw.courses);
      mark := out;
      out := AppendAwards(out, cw.awards);
      Emit(html, mark, doc, Awards(cw.awards));
      doc := doc + Awards(cw.awards);
      EmitLit(html, out, doc, SectionClose);
      out := out + SectionClose.text;
      doc := doc + [SectionClose];
    }
  }

  /** Appends one skill category: its name and one pill per item. */
  method AppendSkillCategory(html: string, c: SkillCategory) returns (out: string)
    ensures out == html + Text(SkillBlock(c))
  {
    WrapText(CategoryOpen, c.category.GetOr(""), CategoryClose);
    out := html + (CategoryOpen.text + c.category.GetOr("") + CategoryClose.text);
    ghost var doc := Wrap(CategoryOpen, c.category.GetOr(""), CategoryClose);
    ghost var start := out;
    var items := ListOr(c.items);
    for i := 0 to |items|
      invariant out == start + Text(ConcatMap(items[..i], Pill))
    {
      ConcatMapSnoc(items, i, Pill);
      EmitWrap(start, out, ConcatMap(items[..i], Pill), PillOpen, items[i], SpanClose);
      out := out + (PillOpen.text + items[i] + SpanClose.text);
    }
    assert items[..|items|] == items;
    Emit(html, start, doc, ConcatMap(items, Pill));
    doc := doc + ConcatMap(items, Pill);
    EmitLit(html, out, doc, ListClose);
    out := out + ListClose.text;
    doc := doc + [ListClose];
    EmitLit(html, out, doc, BlockClose);
    out := out + BlockClose.text;
    doc := doc + [BlockClose];
  }

  /** Appends one skill category block per category, in order. */
  method AppendSkillList(html: string, categories: seq<SkillCategory>) returns (out: string)
    ensures out == html + Text(ConcatMap(categories, SkillBlock))
  {
    out := html;
    for i := 0 to |categories|
      invariant out == html + Text(ConcatMap(categories[..i], SkillBlock))
    {
      ConcatMapSnoc(categories, i, SkillBlock);
      Emit(html, out, ConcatMap(categories[..i], SkillBlock), SkillBlock(categories[i]));
      out := AppendSkillCategory(out, categories[i]);
    }
    assert categories[..|categories|] == categories;
  }

  method AppendSkills(html: string, r: Resume) returns (out: string)
    ensures out == html + Text(SkillsPart(r))
  {
    out := html;
    if NonEmpty(r.skills) {
      TextOne(SkillsHeading);
      out := out + SkillsHeading.text;
      ghost var doc := [SkillsHeading];
      ghost var mark := out;
      out := AppendSkillList(out, r.skills.value);
      Emit(html, mark, doc, ConcatMap(r.skills.value, SkillBlock));
      doc := doc + ConcatMap(r.skills.value, SkillBlock);
      EmitLit(html, out, doc, SectionClose);
      out := out + SectionClose.text;
      doc := doc + [SectionClose];
    }
  }

  /** Appends the details list of a job, project or hobby when it is non-empty. */
  method AppendDetails(html: string, details: Option<seq<string>>) returns (out: string)
    ensures out == html + Text(Details(details))
  {
    out := html;
    if NonEmpty(details) {
      TextOne(DetailsOpen);
      out := out + DetailsOpen.text;
      ghost var doc := [DetailsOpen];
      ghost var start := out;
      var items := details.value;
      for i := 0 to |items|
        invariant out == start + Text(ConcatMap(items[..i], Detail))
      {
        ConcatMapSnoc(items, i, Detail);
        EmitWrap(start, out, ConcatMap(items[..i], Detail), DetailOpen, items[i], ItemClose);
        out := out + (DetailOpen.text + items[i] + ItemClose.text);
      }
      assert items[..|items|] == items;
      Emit(html, start, doc, ConcatMap(items, Detail));
      doc := doc + ConcatMap(items, Detail);
      EmitLit(html, out, doc, DetailsClose);
      out := out + DetailsClose.text;
      doc := doc + [DetailsClose];
    }
  }

  method AppendJob(html: string, j: Job) returns (out: string)
    ensures out == html + Text(JobBlock(j))
  {
    var organization, date, role := j.organization.GetOr(""), j.date.GetOr(""), j.role.GetOr("");
    Row3Text(JobOpen, organization, DateCell, date, RoleOpen, role, LineClose);
    out := html + (JobOpen.text + organization + DateCell.text + date + RoleOpen.text + role + LineClose.text);
    ghost var doc := Row3(JobOpen, organization, DateCell, date, RoleOpen, role, LineClose);
    ghost var mark := out;
    out := AppendDetails(out, j.details);
    Emit(html, mark, doc, Details(j.details));
    doc := doc + Details(j.details);
    EmitLit(html, out, doc, BlockClose);
    out := out + BlockClose.text;
    doc := doc + [BlockClose];
  }

  /** Appends one job block per job, in order. */
  method AppendJobList(html: string, jobs: seq<Job>) returns (out: string)
    ensures out == html + Text(ConcatMap(jobs, JobBlock))
  {
    out := html;
    for i := 0 to |jobs|
      invariant out == html + Text(ConcatMap(jobs[..i], JobBlock))
    {
      ConcatMapSnoc(jobs, i, JobBlock);
      Emit(html, out, ConcatMap(jobs[..i], JobBlock), JobBlock(jobs[i]));
      out := AppendJob(out, jobs[i]);
    }
    assert jobs[..|jobs|] == jobs;
  }

  method AppendExperience(html: string, r: Resume) returns (out: string)
    ensures out == html + Text(ExperiencePart(r))
  {
    out := html;
    if NonEmpty(r.experience) {
      TextOne(ExperienceHeading);
      out := out + ExperienceHeading.text;
      ghost var doc := [ExperienceHeading];
      ghost var mark := out;
      out := AppendJobList(out, r.experience.value);
      Emit(html, mark, doc, ConcatMap(r.experience.value, JobBlock));
      doc := doc + ConcatMap(r.experience.value, JobBlock);
      EmitLit(html, out, doc, SectionClose);
      out := out + SectionClose.text;
      doc := doc + [SectionClose];
    }
  }

  method AppendProject(html: string, p: Project) returns (out: string)
    ensures out == html + Text(ProjectBlock(p))
  {
    var name, date := p.name.GetOr(""), p.date.GetOr("");
    Row2Text(ProjectOpen, name, DateCell, date, ProjectHeaderClose);
    out := html + (ProjectOpen.text + name + DateCell.text + date + ProjectHeaderClose.text);
    ghost var doc := Row2(ProjectOpen, name, DateCell, date, ProjectHeaderClose);
    ghost var mark := out;
    if NonEmpty(p.technologies) {
      TextOne(TechOpen);
      out := out + TechOpen.text;
      ghost var tech := [TechOpen];
      ghost var start := out;
      var items := p.technologies.value;
      for i := 0 to |items|
        invariant out == start + Text(ConcatMap(items[..i], Technology))
      {
        ConcatMapSnoc(items, i, Technology);
        EmitWrap(start, out, ConcatMap(items[..i], Technology), TechItemOpen, items[i], SpanClose);
        out := out + (TechItemOpen.text + items[i] + SpanClose.text);
      }
      assert items[..|items|] == items;
      Emit(mark, start, tech, ConcatMap(items, Technology));
      tech := tech + ConcatMap(items, Technology);
      EmitLit(mark, out, tech, ListClose);
      out := out + ListClose.text;
      tech := tech + [ListClose];
      assert tech == Technologies(p.technologies);
      Emit(html, mark, doc, tech);
    } else {
      EmitEmpty(html, out, doc, Technologies(p.technologies));
    }
    doc := doc + Technologies(p.technologies);
    mark := out;
    out := AppendDetails(out, p.details);
    Emit(html, mark, doc, Details(p.details));
    doc := doc + Details(p.details);
    EmitLit(html, out, doc, BlockClose);
    out := out + BlockClose.text;
    doc := doc + [BlockClose];
  }

  /** Appends one project block per project, in order. */
  method AppendProjectList(html: string, projects: seq<Project>) returns (out: string)
    ensures out == html + Text(ConcatMap(projects, ProjectBlock))
  {
    out := html;
    for i := 0 to |projects|
      invariant out == html + Text(ConcatMap(projects[..i], ProjectBlock))
    {
      ConcatMapSnoc(projects, i, ProjectBlock);
      Emit(html, out, ConcatMap(projects[..i], ProjectBlock), ProjectBlock(projects[i]));
      out := AppendProject(out, projects[i]);
    }
    assert projects[..|projects|] == projects;
  }

  method AppendProjects(html: string, r: Resume) returns (out: string)
    ensures out == html + Text(ProjectsPart(r))
  {
    out := html;
    if NonEmpty(r.projects) {
      TextOne(ProjectsHeading);
      out := out + ProjectsHeading.text;
      ghost var doc := [ProjectsHeading];
      ghost var mark := out;
      out := AppendProjectList(out, r.projects.value);
      Emit(html, mark, doc, ConcatMap(r.projects.value, ProjectBlock));
      doc := doc + ConcatMap(r.projects.value, ProjectBlock);
      EmitLit(html, out, doc, SectionClose);
      out := out + SectionClose.text;
      doc := doc + [SectionClose];
    }
  }

  method AppendHobby(html: string, h: Hobby) returns (out: string)
    ensures out == html + Text(HobbyBlock(h))
  {
    var name := h.name.GetOr("");
    var dateSpan := if Filled(h.date) then HobbyDateOpen.text + h.date.value + HobbyDateClose.text else "";
    WrapText(HobbyOpen, name, HobbyNameClose);
    out := html + (HobbyOpen.text + name + HobbyNameClose.text);
    ghost var doc := Wrap(HobbyOpen, name, HobbyNameClose);
    assert Text(HobbyDate(h.date)) == dateSpan by {
      if Filled(h.date) {
        WrapText(HobbyDateOpen, h.date.value, HobbyDateClose);
      }
    }
    Emit(html, out, doc, HobbyDate(h.date));
    out := out + dateSpan;
    doc := doc + HobbyDate(h.date);
    EmitLit(html, out, doc, HobbyHeaderClose);
    out := out + HobbyHeaderClose.text;
    doc := doc + [HobbyHeaderClose];
    ghost var mark := out;
    out := AppendDetails(out, h.details);
    Emit(html, mark, doc, Details(h.details));
    doc := doc + Details(h.details);
    EmitLit(html, out, doc, BlockClose);
    out := out + BlockClose.text;
    doc := doc + [BlockClose];
  }

  /** Appends one hobby block per hobby, in order. */
  method AppendHobbyList(html: string, hobbies: seq<Hobby>) returns (out: string)
    ensures out == html + Text(ConcatMap(hobbies, HobbyBlock))
  {
    out := html;
    for i := 0 to |hobbies|
      invariant out == html + Text(ConcatMap(hobbies[..i], HobbyBlock))
    {
      ConcatMapSnoc(hobbies, i, HobbyBlock);
      Emit(html, out, ConcatMap(hobbies[..i], HobbyBlock), HobbyBlock(hobbies[i]));
      out := AppendHobby(out, hobbies[i]);
    }
    assert hobbies[..|hobbies|] == hobbies;
  }

  method AppendHobbies(html: string, r: Resume) returns (out: string)
    ensures out == html + Text(HobbiesPart(r))
  {
    out := html;
    if NonEmpty(r.hobbies) {
      TextOne(HobbiesHeading);
      out := out + HobbiesHeading.text;
      ghost var doc := [HobbiesHeading];
      ghost var mark := out;
      out := AppendHobbyList(out, r.hobbies.value);
      Emit(html, mark, doc, ConcatMap(r.hobbies.value, HobbyBlock));
      doc := doc + ConcatMap(r.hobbies.value, HobbyBlock);
      EmitLit(html, out, doc, SectionClose);
      out := out + SectionClose.text;
      doc := doc + [SectionClose];
    }
  }

  /** Appends the sections, each only when its key is present and truthy, in fixed order. */
  method AppendBody(html: string, r: Resume) returns (out: string)
    ensures out == html + Text(Body(r))
  {
    out := AppendEducation(html, r);
    ghost var doc := EducationPart(r);
    ghost var mark := out;
    out := AppendCoursework(out, r);
    Emit(html, mark, doc, CourseworkPart(r));
    doc := doc + CourseworkPart(r);
    mark := out;
    out := AppendSkills(out, r);
    Emit(html, mark, doc, SkillsPart(r));
    doc := doc + SkillsPart(r);
    mark := out;
    out := AppendExperience(out, r);
    Emit(html, mark, doc, ExperiencePart(r));
    doc := doc + ExperiencePart(r);
    mark := out;
    out := AppendProjects(out, r);
    Emit(html, mark, doc, ProjectsPart(r));
    doc := doc + ProjectsPart(r);
    mark := out;
    out := AppendHobbies(out, r);
    Emit(html, mark, doc, HobbiesPart(r));
    doc := doc + HobbiesPart(r);
  }

  /**
   * The whole document for the record `r`; `generatedOn` is the formatted date of the
   * footer, which the original reads from the clock.
   */
  method GenerateHtmlResume(r: Resume, generatedOn: string) returns (html: string)
    ensures html == Html(r, generatedOn)
  {
    WrapText(DocOpen, TitleName(r), HeadClose);
    html := DocOpen.text + r.name.GetOr("Resume") + HeadClose.text;
    ghost var doc := Head(r);
    html := AppendHeader(html, r);
    TextAppend(doc, Header(r));
    doc := doc + Header(r);
    html := AppendBody(html, r);
    TextAppend(doc, Body(r));
    doc := doc + Body(r);
    ghost var mark := html;
    WrapText(FooterOpen, generatedOn, FooterClose);
    html := html + (FooterOpen.text + generatedOn + FooterClose.text);
    ghost var footer := Wrap(FooterOpen, generatedOn, FooterClose);
    EmitLit(mark, html, footer, DocClose);
    html := html + DocClose.text;
    footer := footer + [DocClose];
    TextAppend(doc, footer);
  }
}
