/**
 * The parsed resume record. Every key of the JSON document is optional, so every
 * field is an `Option`; `None` stands for a missing key.
 */
module ResumeData {
  import opened Wrappers

  /** One entry of `education`. */
  datatype EducationEntry = EducationEntry(
    institution: Option<string>,
    degree: Option<string>,
    date: Option<string>,
    gpa: Option<string>)

  /** The single `highSchool` object. */
  datatype HighSchoolEntry = HighSchoolEntry(
    name: Option<string>,
    date: Option<string>,
    note: Option<string>,
    gpa: Option<string>)
  {
    /** A dictionary is truthy when it holds at least one key. */
    predicate Truthy() {
      name.Some? || date.Some? || note.Some? || gpa.Some?
    }
  }

  /** The `coursework` object. */
  datatype CourseworkRecord = CourseworkRecord(
    courses: Option<seq<string>>,
    awards: Option<seq<string>>)
  {
    /** A dictionary is truthy when it holds at least one key. */
    predicate Truthy() {
      courses.Some? || awards.Some?
    }
  }

  /** One entry of `skills`. */
  datatype SkillCategory = SkillCategory(
    category: Option<string>,
    items: Option<seq<string>>)

  /** One entry of `experience`. */
  datatype Job = Job(
    organization: Option<string>,
    role: Option<string>,
    date: Option<string>,
    details: Option<seq<string>>)

  /** One entry of `projects`. */
  datatype Project = Project(
    name: Option<string>,
    date: Option<string>,
    technologies: Option<seq<string>>,
    details: Option<seq<string>>)

  /** One entry of `hobbies`. */
  datatype Hobby = Hobby(
    name: Option<string>,
    date: Option<string>,
    details: Option<seq<string>>)

  /** The whole record read from the input file. */
  datatype Resume = Resume(
    name: Option<string>,
    email: Option<string>,
    linkedin: Option<string>,
    github: Option<string>,
    website: Option<string>,
    lastUpdated: Option<string>,
    education: Option<seq<EducationEntry>>,
    highSchool: Option<HighSchoolEntry>,
    coursework: Option<CourseworkRecord>,
    skills: Option<seq<SkillCategory>>,
    experience: Option<seq<Job>>,
    projects: Option<seq<Project>>,
    hobbies: Option<seq<Hobby>>)

  /** A string value is truthy when its key is present and the string is not empty. */
  predicate Filled(o: Option<string>) {
    o.Some? && o.value != ""
  }

  /** A list value is truthy when its key is present and the list is not empty. */
  predicate NonEmpty<T>(o: Option<seq<T>>) {
    o.Some? && |o.value| > 0
  }

  /** A list looked up with the empty list as default. */
  function ListOr<T>(o: Option<seq<T>>): seq<T> {
    o.GetOr([])
  }
}
