/**
 * Where things go in the rendered document: the entries of each section in the order
 * of their list, the high school entry after all education entries, and the literal
 * text of the contact line.
 */
module RenderStructure {
  import opened Wrappers
  import opened ResumeData
  import opened Markup
  import opened RenderSpec
  import opened RenderCounts

  // ---------------------------------------------------------------- entries in list order

  /** Education entry `i` follows the heading and entries 0 to i-1, in list order. */
  lemma EducationOrder(r: Resume, i: nat)
    requires Shown(r, Education) && i < |r.education.value|
    ensures [EducationHeading] + ConcatMap(r.education.value[..i], EducationBlock)
            + EducationBlock(r.education.value[i]) <= EducationPart(r)
  {
    var xs := r.education.value;
    var rest := HighSchoolPart(r.highSchool) + [SectionClose];
    FramedBlockAt(EducationHeading, xs, EducationBlock, i, rest);
    AppendAssoc([EducationHeading] + ConcatMap(xs, EducationBlock), HighSchoolPart(r.highSchool), [SectionClose]);
  }

  /** Skill category `i` follows the heading and categories 0 to i-1, in list order. */
  lemma SkillsOrder(r: Resume, i: nat)
    requires Shown(r, Skills) && i < |r.skills.value|
    ensures [SkillsHeading] + ConcatMap(r.skills.value[..i], SkillBlock) + SkillBlock(r.skills.value[i])
            <= SkillsPart(r)
  {
    FramedBlockAt(SkillsHeading, r.skills.value, SkillBlock, i, [SectionClose]);
  }

  /** Job `i` follows the heading and jobs 0 to i-1, in list order. */
  lemma ExperienceOrder(r: Resume, i: nat)
    requires Shown(r, Experience) && i < |r.experience.value|
    ensures [ExperienceHeading] + ConcatMap(r.experience.value[..i], JobBlock) + JobBlock(r.experience.value[i])
            <= ExperiencePart(r)
  {
    FramedBlockAt(ExperienceHeading, r.experience.value, JobBlock, i, [SectionClose]);
  }

  /** Project `i` follows the heading and projects 0 to i-1, in list order. */
  lemma ProjectsOrder(r: Resume, i: nat)
    requires Shown(r, Projects) && i < |r.projects.value|
    ensures [ProjectsHeading] + ConcatMap(r.projects.value[..i], ProjectBlock) + ProjectBlock(r.projects.value[i])
            <= ProjectsPart(r)
  {
    FramedBlockAt(ProjectsHeading, r.projects.value, ProjectBlock, i, [SectionClose]);
  }

  /** Hobby `i` follows the heading and hobbies 0 to i-1, in list order. */
  lemma HobbiesOrder(r: Resume, i: nat)
    requires Shown(r, Hobbies) && i < |r.hobbies.value|
    ensures [HobbiesHeading] + ConcatMap(r.hobbies.value[..i], HobbyBlock) + HobbyBlock(r.hobbies.value[i])
            <= HobbiesPart(r)
  {
    FramedBlockAt(HobbiesHeading, r.hobbies.value, HobbyBlock, i, [SectionClose]);
  }

  /** Detail `i` of a details list follows details 0 to i-1, in list order. */
  lemma DetailsOrder(o: Option<seq<string>>, i: nat)
    requires NonEmpty(o) && i < |o.value|
    ensures [DetailsOpen] + ConcatMap(o.value[..i], Detail) + Detail(o.value[i]) <= Details(o)
  {
    FramedBlockAt(DetailsOpen, o.value, Detail, i, [DetailsClose]);
  }

  /** Technology `i` of a project follows technologies 0 to i-1, in list order. */
  lemma TechnologiesOrder(o: Option<seq<string>>, i: nat)
    requires NonEmpty(o) && i < |o.value|
    ensures [TechOpen] + ConcatMap(o.value[..i], Technology) + Technology(o.value[i]) <= Technologies(o)
  {
    FramedBlockAt(TechOpen, o.value, Technology, i, [ListClose]);
  }

  /** Course `i` follows courses 0 to i-1, in list order. */
  lemma CoursesOrder(o: Option<seq<string>>, i: nat)
    requires NonEmpty(o) && i < |o.value|
    ensures [CategoryDiv] + [SkillsList] + ConcatMap(o.value[..i], Pill) + Pill(o.value[i]) <= Courses(o)
  {
    var pre := [CategoryDiv] + [SkillsList];
    PrefixedBlockAt(pre, o.value, Pill, i, [ListClose] + [BlockClose]);
    AppendAssoc(pre + ConcatMap(o.value, Pill), [ListClose], [BlockClose]);
  }

  /** Award `i` follows awards 0 to i-1, in list order. */
  lemma AwardsOrder(o: Option<seq<string>>, i: nat)
    requires NonEmpty(o) && i < |o.value|
    ensures [AwardsHeading] + [AwardsOpen] + ConcatMap(o.value[..i], Award) + Award(o.value[i]) <= Awards(o)
  {
    PrefixedBlockAt([AwardsHeading] + [AwardsOpen], o.value, Award, i, [AwardsClose]);
  }

  /** Skill item `i` of a category follows its title and items 0 to i-1, in list order. */
  lemma SkillItemsOrder(c: SkillCategory, i: nat)
    requires i < |ListOr(c.items)|
    ensures Wrap(CategoryOpen, c.category.GetOr(""), CategoryClose) + ConcatMap(ListOr(c.items)[..i], Pill)
            + Pill(ListOr(c.items)[i]) <= SkillBlock(c)
  {
    var pre := Wrap(CategoryOpen, c.category.GetOr(""), CategoryClose);
    PrefixedBlockAt(pre, ListOr(c.items), Pill, i, [ListClose] + [BlockClose]);
    AppendAssoc(pre + ConcatMap(ListOr(c.items), Pill), [ListClose], [BlockClose]);
  }

  // ---------------------------------------------------------------- the high school entry

  /**
   * A truthy high school closes a shown education section: the section ends with the
   * high school entry and the closing tag, and every entry of the education list
   * comes before it.
   */
  lemma HighSchoolLast(r: Resume)
    requires Shown(r, Education) && r.highSchool.Some? && r.highSchool.value.Truthy()
    ensures var part, tail := EducationPart(r), HighSchoolBlock(r.highSchool.value) + [SectionClose];
            |tail| <= |part| && part[|part| - |tail|..] == tail
            && Count(part[..|part| - |tail|], EntryStart(Education)) == |r.education.value|
  {
    var entries := ConcatMap(r.education.value, EducationBlock);
    var pre, tail := [EducationHeading] + entries, HighSchoolBlock(r.highSchool.value) + [SectionClose];
    AppendAssoc(pre, HighSchoolBlock(r.highSchool.value), [SectionClose]);
    assert EducationPart(r) == pre + tail;
    assert (pre + tail)[..|pre|] == pre;
    assert (pre + tail)[|pre|..] == tail;
    EducationListEntries(r.education.value, EntryStart(Education));
    CountAppend([EducationHeading], entries, EntryStart(Education));
    CountOne(EducationHeading, EntryStart(Education));
  }

  lemma SameParts(r: Resume, r': Resume, d: string)
    requires Head(r) == Head(r') && Header(r) == Header(r') && Body(r) == Body(r')
    ensures Html(r, d) == Html(r', d)
  {
  }

  lemma BodyIgnoresHighSchool(r: Resume)
    requires !Shown(r, Education)
    ensures Body(r) == Body(r.(highSchool := None))
  {
    var r' := r.(highSchool := None);
    assert EducationPart(r) == [] == EducationPart(r');
    assert CourseworkPart(r) == CourseworkPart(r');
    assert SkillsPart(r) == SkillsPart(r');
    assert ExperiencePart(r) == ExperiencePart(r');
    assert ProjectsPart(r) == ProjectsPart(r');
    assert HobbiesPart(r) == HobbiesPart(r');
  }

  lemma FrontIgnoresHighSchool(r: Resume)
    ensures Head(r) == Head(r.(highSchool := None)) && Header(r) == Header(r.(highSchool := None))
  {
    var r' := r.(highSchool := None);
    assert Contact(r) == Contact(r');
  }

  /** Without a shown education section the high school record changes nothing. */
  lemma HighSchoolIgnored(r: Resume, d: string)
    requires !Shown(r, Education)
    ensures Html(r, d) == Html(r.(highSchool := None), d)
  {
    BodyIgnoresHighSchool(r);
    FrontIgnoresHighSchool(r);
    SameParts(r, r.(highSchool := None), d);
  }

  // ---------------------------------------------------------------- the contact line

  lemma EmailText(r: Resume)
    ensures Text(Email(r)) == if Filled(r.email) then "            <span>" + r.email.value + "</span> | \n" else ""
  {
    if Filled(r.email) {
      WrapText(EmailOpen, r.email.value, EmailClose);
    }
  }

  lemma LinkedInText(r: Resume)
    ensures Text(LinkedIn(r))
            == if Filled(r.linkedin)
               then "            <span><a href='https://" + r.linkedin.value + "'>" + r.linkedin.value
                    + "</a></span> | \n"
               else ""
  {
    if Filled(r.linkedin) {
      Row2Text(LinkedInOpen, r.linkedin.value, LinkMid, r.linkedin.value, LinkedInClose);
    }
  }

  lemma GitHubText(r: Resume)
    ensures Text(GitHub(r))
            == if Filled(r.github)
               then "            <span><a href='https://" + r.github.value + "'>" + r.github.value + "</a></span>"
               else ""
  {
    if Filled(r.github) {
      Row2Text(GitHubOpen, r.github.value, LinkMid, r.github.value, LinkClose);
    }
  }

  lemma WebsiteText(r: Resume)
    ensures Text(Website(r))
            == if Filled(r.website)
               then " | <span><a href='" + r.website.value + "'>" + r.website.value + "</a></span>"
               else ""
  {
    if Filled(r.website) {
      Row2Text(WebsiteOpen, r.website.value, LinkMid, r.website.value, LinkClose);
    }
  }

  /**
   * The contact line: the email followed by " | ", the LinkedIn link followed by
   * " | ", the GitHub link with no separator, and the website preceded by " | ", each
   * only when its field is filled. An email alone therefore leaves a trailing " | ",
   * and a website alone begins with one.
   */
  lemma ContactText(r: Resume)
    ensures Text(Contact(r))
            == (if Filled(r.email) then "            <span>" + r.email.value + "</span> | \n" else "")
               + (if Filled(r.linkedin)
                  then "            <span><a href='https://" + r.linkedin.value + "'>" + r.linkedin.value
                       + "</a></span> | \n"
                  else "")
               + (if Filled(r.github)
                  then "            <span><a href='https://" + r.github.value + "'>" + r.github.value
                       + "</a></span>"
                  else "")
               + (if Filled(r.website)
                  then " | <span><a href='" + r.website.value + "'>" + r.website.value + "</a></span>"
                  else "")
  {
    TextAppend(Email(r) + LinkedIn(r) + GitHub(r), Website(r));
    TextAppend(Email(r) + LinkedIn(r), GitHub(r));
    TextAppend(Email(r), LinkedIn(r));
    EmailText(r);
    LinkedInText(r);
    GitHubText(r);
    WebsiteText(r);
  }
}
