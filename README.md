# Resume renderer: a verified model

The converter reads a resume as a JSON record and writes a single HTML page. This
project models its two pieces of logic:

- the renderer `generate_html_resume`, which builds the page by appending fragments
  to a string, section by section, in nested loops;
- the default output path: the input path with everything from its last `.` on
  replaced by `.html`, or `.html` appended when it has no `.`.

## How the model is organised

- `wrappers.dfy` (`Wrappers`): `Option` with `GetOr`, which stands in for the
  record's `.get(key, default)`.
- `resume_data.dfy` (`ResumeData`): the parsed record.
  - Every key is optional, so every field is an `Option`, and a missing key is `None`.
  - Python truthiness becomes explicit predicates. `Filled` holds for a present,
    non-empty string. `NonEmpty` holds for a present, non-empty list. `Truthy` holds
    for a `highSchool` or `coursework` object with at least one key.
- `markup.dfy` (`Markup`): the page as a sequence of pieces.
  - A `Lit` piece is one fixed markup fragment, one named constant per fragment.
    Each one carries a role: a section heading, the start of an entry, of a list
    item or of an optional block, or plain markup.
  - A `Val` piece is a value copied from the record.
  - `Text` flattens the pieces into the string that is written.
  - `Outline` lists the section headings in order. `Count` counts the fragments of a
    given role.
- `render_spec.dfy` (`RenderSpec`): the functional specification.
  - `Document(r, d)` is the page for record `r` and footer date `d`, as pieces.
  - `Html(r, d)` is its text.
  - `Shown(r, k)` is the one gating rule for section `k`.
- `renderer.dfy` (`Renderer`): the renderer as the source writes it.
  - Each method appends to an `html` string, with a `for` loop over each list.
  - Each is proved to append exactly `Text` of its part of the specification.
  - `GenerateHtmlResume` returns exactly `Html(r, generatedOn)`.
- `properties.dfy`, `counts.dfy` and `structure.dfy` prove what the renderer
  promises about that specification:
  - where the title and the `<h1>` go, and how the page starts and ends;
  - which section headings appear, and in which order;
  - how many entries and items each list yields, and in which order;
  - where the high school entry goes, or that it is dropped;
  - the exact text of the contact line.
- `output_path.dfy` (`OutputPath`): the default output path, as written and corrected.

Headings and entries are identified by the role of their fragment, not by searching
the text. Values are inserted verbatim, so a value such as `<h2 ...>Skills</h2>` could
otherwise be mistaken for a heading. Every record value enters the document as a
`Val` piece of `RenderSpec`, and `Markup.ValueVerbatim` proves that every piece, so every
value, appears unchanged in the output.

The footer's generation date is a parameter of the renderer: the source reads the
clock and formats it with `datetime.now().strftime("%B %d, %Y")`. The CSS
block of the head is one constant, `Markup.StyleSheet`, whose text is not modelled.

## Model

| member | source | states |
|---|---|---|
| `Renderer.GenerateHtmlResume` | main.py:43-326 | the string the renderer returns is exactly `Html(r, generatedOn)`, the text of the specified document |
| `Renderer.AppendHeader` | main.py:149-168 | appends exactly the header: the `<h1>` name, the contact line, the optional "Last Updated" line and the closing tag |
| `Renderer.AppendContact` | main.py:152-162 | appends exactly the contact line, with each field's fragment only when that field is truthy |
| `Renderer.AppendBody` | main.py:170-313 | appends the six sections in the fixed order Education, Coursework, Skills, Experience, Projects, Hobbies |
| `Renderer.AppendEducation` | main.py:171-207 | appends the education section only when `education` is non-empty: its heading, every entry, then the high school entry when it is truthy |
| `Renderer.AppendEducationList` | main.py:175-188 | the loop over `education` appends one entry block per element, in list order |
| `Renderer.AppendEduEntry` | main.py:176-205 | appends one education-like entry: title, date and second line, then the GPA paragraph only when the GPA is truthy |
| `Renderer.AppendCoursework` | main.py:210-230 | appends the coursework section only when `coursework` is truthy: its heading, the courses block and the awards block |
| `Renderer.AppendCourses` | main.py:214-220 | appends the course pills only when `courses` is non-empty, one pill per course, in order |
| `Renderer.AppendAwards` | main.py:223-228 | appends the Awards heading and list only when `awards` is non-empty, one item per award, in order |
| `Renderer.AppendSkills` | main.py:233-246 | appends the skills section only when `skills` is non-empty, with one category block per element |
| `Renderer.AppendSkillList` | main.py:237-245 | the loop over `skills` appends one category block per element, in list order |
| `Renderer.AppendSkillCategory` | main.py:238-245 | appends one category: its title, then one pill per item of `items` (the empty list when the key is absent) |
| `Renderer.AppendExperience` | main.py:249-267 | appends the experience section only when `experience` is non-empty, with one job block per element |
| `Renderer.AppendJobList` | main.py:253-266 | the loop over `experience` appends one job block per element, in list order |
| `Renderer.AppendJob` | main.py:254-266 | appends one job: organization, date and role, then its details list |
| `Renderer.AppendDetails` | main.py:261-265 | appends the details `<ul>` only when the list is non-empty, with one `<li>` per detail, in order |
| `Renderer.AppendProjects` | main.py:270-293 | appends the projects section only when `projects` is non-empty, with one project block per element |
| `Renderer.AppendProjectList` | main.py:274-292 | the loop over `projects` appends one project block per element, in list order |
| `Renderer.AppendProject` | main.py:275-292 | appends one project: name and date, the technologies list only when non-empty, then its details list |
| `Renderer.AppendHobbies` | main.py:296-313 | appends the hobbies section ("Interests & Activities") only when `hobbies` is non-empty |
| `Renderer.AppendHobbyList` | main.py:300-312 | the loop over `hobbies` appends one hobby block per element, in list order |
| `Renderer.AppendHobby` | main.py:301-312 | appends one hobby: its name, the date span only when the date is truthy, then its details list |
| `RenderProperties.DocumentText` | main.py:43-326 | the page is the head, then the header, then the body, then the footer |
| `RenderProperties.HeadStart` | main.py:47-52 | the head starts with `<!DOCTYPE html>` and its title is the name, or `Resume` only when the `name` key is absent, followed by ` - Resume` |
| `RenderProperties.HeaderStart` | main.py:150 | the header starts with the `<h1>` holding the name, or the empty string when the key is absent |
| `RenderProperties.TitleAndName` | main.py:47-150 | the whole page starts with `<!DOCTYPE html>` and the title line, and the head is followed directly by the `<h1>` line |
| `RenderProperties.DocumentEnd` | main.py:315-326 | the page ends with the footer that shows the date, then `</body>\n</html>`; everything before the footer depends on the record alone |
| `RenderProperties.EducationOutline` | main.py:171-207 | the education part holds the Education heading exactly when the section is shown, and no other heading |
| `RenderProperties.CourseworkOutline` | main.py:210-230 | the coursework part holds the Coursework heading exactly when `coursework` is truthy, and no other heading |
| `RenderProperties.SkillsOutline` | main.py:233-246 | the skills part holds the Skills heading exactly when `skills` is non-empty, and no other heading |
| `RenderProperties.ExperienceOutline` | main.py:249-267 | the experience part holds the Experience heading exactly when `experience` is non-empty, and no other heading |
| `RenderProperties.ProjectsOutline` | main.py:270-293 | the projects part holds the Projects heading exactly when `projects` is non-empty, and no other heading |
| `RenderProperties.HobbiesOutline` | main.py:296-313 | the hobbies part holds the "Interests & Activities" heading exactly when `hobbies` is non-empty, and no other heading |
| `RenderProperties.BodyOutline` | main.py:170-313 | the body's headings are exactly the shown sections, in the fixed section order |
| `RenderProperties.HeadOutline` | main.py:47-147 | the head holds no section heading |
| `RenderProperties.HeaderOutline` | main.py:149-168 | the header holds no section heading |
| `RenderProperties.FooterOutline` | main.py:316-324 | the footer and the closing tags hold no section heading |
| `RenderProperties.SectionOrder` | main.py:149-324 | the sequence of section headings of the whole page is exactly the shown sections, in the order Education, Coursework, Skills, Experience, Projects, Hobbies |
| `RenderProperties.SectionGating` | main.py:171-313 | a section's heading appears in the page if and only if its key is present and truthy |
| `RenderCounts.GpaCount` | main.py:183-187 | the GPA paragraph appears once when the GPA is truthy and not at all otherwise |
| `RenderCounts.HobbyDateCount` | main.py:304 | the hobby date span appears once when the date is truthy and not at all otherwise |
| `RenderCounts.DetailsCount` | main.py:261-265 | the details `<ul>` appears once exactly when the list is non-empty, with one `<li>` per detail |
| `RenderCounts.TechnologiesCount` | main.py:281-285 | the technologies block appears once exactly when the list is non-empty, with one pill per technology |
| `RenderCounts.CoursesCount` | main.py:214-220 | the courses block appears once exactly when the list is non-empty, with one pill per course |
| `RenderCounts.AwardsCount` | main.py:223-228 | the Awards list appears once exactly when the list is non-empty, with one item per award |
| `RenderCounts.EduEntryCount` | main.py:176-188 | an education entry is one entry, plus its GPA paragraph |
| `RenderCounts.SkillBlockCount` | main.py:238-245 | a skill category is one entry, with one pill per item |
| `RenderCounts.JobBlockCount` | main.py:254-266 | a job is one entry, plus its details list |
| `RenderCounts.ProjectBlockCount` | main.py:275-292 | a project is one entry, plus its technologies and its details |
| `RenderCounts.HobbyBlockCount` | main.py:301-312 | a hobby is one entry, plus its date span and its details |
| `RenderCounts.CourseworkCount` | main.py:210-230 | a shown coursework section is its heading, its courses and its awards; a hidden one has no fragment of any role |
| `RenderCounts.EducationListEntries` | main.py:175-188 | N education entries yield exactly N education entry blocks and no entry of another section |
| `RenderCounts.HighSchoolEntries` | main.py:191-205 | the high school yields one education entry exactly when it is truthy |
| `RenderCounts.EducationEntries` | main.py:171-207 | a shown education section holds one entry per element of `education`, plus one for a truthy high school; a hidden one holds none |
| `RenderCounts.CourseworkEntries` | main.py:210-230 | the coursework section holds no entry block of any section |
| `RenderCounts.SkillsEntries` | main.py:233-246 | the skills part holds exactly one entry per skill category, and none of another section |
| `RenderCounts.ExperienceEntries` | main.py:249-267 | the experience part holds exactly one entry per job, and none of another section |
| `RenderCounts.ProjectsEntries` | main.py:270-293 | the projects part holds exactly one entry per project, and none of another section |
| `RenderCounts.HobbiesEntries` | main.py:296-313 | the hobbies part holds exactly one entry per hobby, and none of another section |
| `RenderCounts.EmailCount` | main.py:153-154 | the email fragment appears once exactly when `email` is truthy |
| `RenderCounts.LinkedInCount` | main.py:155-156 | the LinkedIn link appears once exactly when `linkedin` is truthy |
| `RenderCounts.GitHubCount` | main.py:157-158 | the GitHub link appears once exactly when `github` is truthy |
| `RenderCounts.WebsiteCount` | main.py:159-160 | the website link appears once exactly when `website` is truthy |
| `RenderCounts.ContactCount` | main.py:152-162 | the contact line holds each of its four fields once exactly when that field is truthy, and nothing else of note |
| `RenderCounts.HeaderCount` | main.py:149-168 | the header is the contact line plus the "Last Updated" line, present once exactly when `lastUpdated` is truthy |
| `RenderCounts.FrameEntries` | main.py:47-168 | the head, the header and the footer hold no entry of any section |
| `RenderCounts.DocumentEntries` | main.py:171-313 | the whole page holds exactly one entry per element of each section's list (and one for a truthy high school in a shown education section), and none elsewhere |
| `RenderStructure.EducationOrder` | main.py:175-188 | education entry i comes right after the heading and entries 0 to i-1 |
| `RenderStructure.SkillsOrder` | main.py:237-245 | skill category i comes right after the heading and categories 0 to i-1 |
| `RenderStructure.SkillItemsOrder` | main.py:242-243 | skill item i comes right after the category title and items 0 to i-1 |
| `RenderStructure.CoursesOrder` | main.py:217-218 | course i comes right after the list opening and courses 0 to i-1 |
| `RenderStructure.AwardsOrder` | main.py:226-227 | award i comes right after the Awards heading and awards 0 to i-1 |
| `RenderStructure.ExperienceOrder` | main.py:253-266 | job i comes right after the heading and jobs 0 to i-1 |
| `RenderStructure.DetailsOrder` | main.py:263-264 | detail i comes right after the `<ul>` and details 0 to i-1 |
| `RenderStructure.ProjectsOrder` | main.py:274-292 | project i comes right after the heading and projects 0 to i-1 |
| `RenderStructure.TechnologiesOrder` | main.py:283-284 | technology i comes right after the list opening and technologies 0 to i-1 |
| `RenderStructure.HobbiesOrder` | main.py:300-312 | hobby i comes right after the heading and hobbies 0 to i-1 |
| `RenderStructure.HighSchoolLast` | main.py:190-207 | in a shown education section, a truthy high school is the last entry, and all `education` entries come before it |
| `RenderStructure.HighSchoolIgnored` | main.py:171-207 | when `education` is absent or empty, the page is the same as if `highSchool` were absent |
| `RenderStructure.EmailText` | main.py:153-154 | the email text is the value in a `<span>` followed by the bar separator and a newline, or nothing |
| `RenderStructure.LinkedInText` | main.py:155-156 | the LinkedIn text is a link to `https://` + handle, showing the handle, followed by the bar separator, or nothing |
| `RenderStructure.GitHubText` | main.py:157-158 | the GitHub text is a link to `https://` + handle, showing the handle, with no separator, or nothing |
| `RenderStructure.WebsiteText` | main.py:159-160 | the website text is the bar separator followed by a link to the value itself, or nothing |
| `RenderStructure.ContactText` | main.py:152-162 | the contact line's text is the four field texts in order, each present only when its field is truthy; there is no joining logic |
| `Markup.ValueVerbatim` | main.py:149-313 | every piece, and so every value piece the renderer places, is copied character for character into the text, right after the text of the pieces before it |
| `Markup.ConcatMapBlockAt` | main.py:175-312 | in every entries loop, the block of element i follows, unchanged, the blocks of the elements before it |
| `OutputPath.LastIndexOf` | main.py:21 | the position found holds the last `.` of the path, and there is none exactly when the path holds no `.` |
| `OutputPath.Stem` | main.py:21 | `rsplit('.', 1)[0]` keeps a prefix of the path that ends just before its last `.`, or the whole path when it has no `.` |
| `OutputPath.DefaultOutputPath` | main.py:21 | the default path ends with `.html`, and what comes before is the input cut just before its last `.` (or kept whole when it has none) |
| `OutputPath.ReplacesLastSuffix` | main.py:21 | a path `stem.ext`, with no `.` in `ext`, gives `stem.html` |
| `OutputPath.DottedDirectory` | main.py:21 | as written, `data.v2/resume` gives `data.html` |
| `OutputPath.LeadingDotDirectory` | main.py:21 | as written, `./resume` gives `.html` |
| `OutputPath.BaseStart` | main.py:21 | the file name starts after the last `/` and holds no `/` |
| `OutputPath.ExtensionDot` | main.py:21 | both directions: a `.` is found exactly when the file name has a `.` with some character other than `.` before it; the one found is the file name's last `.`, inside the file name and after such a character |
| `OutputPath.MultiDotExtension` | main.py:21 | corrected, only the last extension is replaced: `a.tar.gz` gives `a.tar.html` |
| `OutputPath.ReplaceExtension` | main.py:21 | the corrected path ends with `.html` after a prefix of the input that keeps the whole directory part: the input cut at the file name's extension, or the whole input when there is none |
| `OutputPath.NoExtensionAppends` | main.py:21 | a file name with no `.` gets `.html` appended |
| `OutputPath.ReplacesExtension` | main.py:21 | a directory, a file name and an extension give the directory and the file name with `.html` |
| `OutputPath.CorrectedDottedDirectory` | main.py:21 | corrected, `data.v2/resume` gives `data.v2/resume.html` |
| `OutputPath.CorrectedLeadingDot` | main.py:21 | corrected, `./resume` gives `./resume.html` |
| `OutputPath.AgreesWithExtension` | main.py:21 | where the file name has an extension, the corrected path and the path as written agree |

## Left out

- Reading the JSON file, writing the HTML file, the success message and the three
  error handlers with their messages (main.py:14-41): file I/O and console output.
- JSON parsing (main.py:17): the model starts from the parsed record. Keys the
  renderer does not read are not represented, so the truthiness of the `highSchool`
  and `coursework` objects counts only the keys that the renderer reads.
- JSON `null` values: a key present with the value `null` is the same as a missing
  key in the model. The source differs in three ways.
  - Text: `.get(key, default)` returns the `None` itself, which prints as `None`. This
    affects the title and the `<h1>` (main.py:52, 150) and every entry field read
    with a default: institution, date, degree, the high school's name, date and note,
    the skill category, organization, role, the job and project dates, and the
    project and hobby names. The model prints the default (`Resume` or the empty
    string). A hobby's `null` date prints nothing in both, because the date span is
    gated on the date being truthy (main.py:304).
  - Gating: a `coursework` or `highSchool` object whose keys are all `null` is still a
    non-empty dictionary, so it is truthy in the source. With `{"courses": null}` the
    source prints the Coursework heading and its closing tag (main.py:210-212, 230);
    with `{"name": null}` it prints a high school entry (main.py:191-205). In the model
    `Truthy()` is false for these, and the part is hidden.
  - Failure: a skill category with `"items": null` makes the loop at main.py:242 run
    over `None`, which raises a `TypeError`. The catch-all handler (main.py:39-41)
    then prints an error and no file is written. The model renders that category with
    no pills, as if `items` were absent.
- Dynamic typing: a number where a string is expected, a scalar where a list or an
  object is expected, or a number `0` GPA. The typed record rules these out.
- The clock and the date formatting (main.py:316): the date is the parameter
  `generatedOn`.
- The exact CSS text (main.py:53-142): `Markup.StyleSheet` is a constant whose text is
  not given. The properties hold whatever it is.
- The command-line handling (main.py:328-339).
- Renderer: the model splits the one long function into a method per section, entry
  and list. Each appends to the string it is given, as the source does with `+=`.

## Findings

| source | as written | input that shows it | evidently intended | confidence | as-written member | corrected member |
|---|---|---|---|---|---|---|
| main.py:21 | `json_file_path.rsplit('.', 1)[0] + '.html'` cuts the path at its last `.` anywhere, also one in a directory name or one that starts the file name | `data.v2/resume` gives `data.html` (the output goes to another directory); `./resume` gives `.html` | replace only the file name's extension, or append `.html` when it has none: `data.v2/resume.html`, `./resume.html` | not executed | `OutputPath.DefaultOutputPath`, `OutputPath.DottedDirectory`, `OutputPath.LeadingDotDirectory` | `OutputPath.ReplaceExtension`, `OutputPath.ReplacesExtension`, `OutputPath.CorrectedDottedDirectory`, `OutputPath.CorrectedLeadingDot` |
