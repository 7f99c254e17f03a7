/**
 * The résumé document the editor keeps in its `cvData` state, and the
 * copy-on-write transforms `prev => next` that the editor's update handlers
 * pass to `setCvData`. Each transform rebuilds one part of the record and
 * shares the rest.
 */
module Resume {
  import opened Text
  import Lists

  datatype Personal = Personal(fullName: string, email: string, phone: string, location: string, summary: string)

  /** The keys the personal form writes through `[field]: value`. */
  datatype PersonalField = FullName | Email | Phone | Location | Summary

  datatype Experience = Experience(company: string, position: string, duration: string, description: string)

  /** The keys the experience cards write through `[field]: value`. */
  datatype ExperienceField = Company | Position | Duration | Description

  datatype Education = Education(institution: string, degree: string, year: string, gpa: string)

  /** The keys the education cards write through `[field]: value`. */
  datatype EducationField = Institution | Degree | Year | Gpa

  datatype Document = Document(
    personal: Personal,
    experience: seq<Experience>,
    education: seq<Education>,
    skills: seq<string>,
    achievements: seq<string>)

  const BlankExperience := Experience("", "", "", "")
  const BlankEducation := Education("", "", "", "")

  // ---------------------------------------------------------------------
  // Field access by key

  function PersonalValue(p: Personal, f: PersonalField): string {
    match f
    case FullName => p.fullName
    case Email => p.email
    case Phone => p.phone
    case Location => p.location
    case Summary => p.summary
  }

  /** `{ ...p, [f]: v }`: field f now reads v, every other field reads as before. */
  function WithPersonal(p: Personal, f: PersonalField, v: string): (q: Personal)
    ensures PersonalValue(q, f) == v
    ensures forall g :: g != f ==> PersonalValue(q, g) == PersonalValue(p, g)
  {
    match f
    case FullName => p.(fullName := v)
    case Email => p.(email := v)
    case Phone => p.(phone := v)
    case Location => p.(location := v)
    case Summary => p.(summary := v)
  }

  function ExperienceValue(e: Experience, f: ExperienceField): string {
    match f
    case Company => e.company
    case Position => e.position
    case Duration => e.duration
    case Description => e.description
  }

  /** `{ ...exp, [f]: v }`: field f now reads v, every other field reads as before. */
  function WithExperience(e: Experience, f: ExperienceField, v: string): (e': Experience)
    ensures ExperienceValue(e', f) == v
    ensures forall g :: g != f ==> ExperienceValue(e', g) == ExperienceValue(e, g)
  {
    match f
    case Company => e.(company := v)
    case Position => e.(position := v)
    case Duration => e.(duration := v)
    case Description => e.(description := v)
  }

  function EducationValue(e: Education, f: EducationField): string {
    match f
    case Institution => e.institution
    case Degree => e.degree
    case Year => e.year
    case Gpa => e.gpa
  }

  /** `{ ...edu, [f]: v }`: field f now reads v, every other field reads as before. */
  function WithEducation(e: Education, f: EducationField, v: string): (e': Education)
    ensures EducationValue(e', f) == v
    ensures forall g :: g != f ==> EducationValue(e', g) == EducationValue(e, g)
  {
    match f
    case Institution => e.(institution := v)
    case Degree => e.(degree := v)
    case Year => e.(year := v)
    case Gpa => e.(gpa := v)
  }

  // ---------------------------------------------------------------------
  // The invariant every reachable document satisfies

  /** Experience and education always hold at least one entry (they start with
      one and no operation removes any), and every skill and achievement is a
      non-empty trimmed string (the only way in is through trim-and-check). */
  predicate Valid(d: Document) {
    && |d.experience| >= 1
    && |d.education| >= 1
    && (forall k :: 0 <= k < |d.skills| ==> IsListItem(d.skills[k]))
    && (forall k :: 0 <= k < |d.achievements| ==> IsListItem(d.achievements[k]))
  }

  /** The document the editor starts from: blank personal data, one blank
      experience entry, one blank education entry, no skills, no achievements. */
  function Initial(): (d: Document)
    ensures Valid(d)
    ensures forall f :: PersonalValue(d.personal, f) == ""
    ensures |d.experience| == 1 && forall f :: ExperienceValue(d.experience[0], f) == ""
    ensures |d.education| == 1 && forall f :: EducationValue(d.education[0], f) == ""
    ensures d.skills == [] && d.achievements == []
  {
    Document(Personal("", "", "", "", ""), [BlankExperience], [BlankEducation], [], [])
  }

  // ---------------------------------------------------------------------
  // The transforms passed to setCvData

  /** updatePersonal(f, v): personal field f becomes v; the other four
      personal fields and all four lists are untouched. */
  function UpdatePersonal(d: Document, f: PersonalField, v: string): (r: Document)
    ensures PersonalValue(r.personal, f) == v
    ensures forall g :: g != f ==> PersonalValue(r.personal, g) == PersonalValue(d.personal, g)
    ensures r.experience == d.experience && r.education == d.education
    ensures r.skills == d.skills && r.achievements == d.achievements
    ensures Valid(d) ==> Valid(r)
  {
    d.(personal := WithPersonal(d.personal, f, v))
  }

  /** updateExperience(index, f, v): field f of the entry at index becomes v,
      its other fields and every other entry are untouched, and the list keeps
      its length; an index outside the list changes nothing at all. */
  function UpdateExperience(d: Document, index: int, f: ExperienceField, v: string): (r: Document)
    ensures |r.experience| == |d.experience|
    ensures forall k :: 0 <= k < |d.experience| && k != index ==> r.experience[k] == d.experience[k]
    ensures 0 <= index < |d.experience| ==>
              && ExperienceValue(r.experience[index], f) == v
              && forall g :: g != f ==> ExperienceValue(r.experience[index], g) == ExperienceValue(d.experience[index], g)
    ensures !(0 <= index < |d.experience|) ==> r == d
    ensures r.personal == d.personal && r.education == d.education
    ensures r.skills == d.skills && r.achievements == d.achievements
    ensures Valid(d) ==> Valid(r)
  {
    d.(experience := Lists.UpdateAt(d.experience, index, e => WithExperience(e, f, v)))
  }

  /** addExperience(): one fully blank entry is appended after the existing
      entries, which are kept as they were. */
  function AddExperience(d: Document): (r: Document)
    ensures |r.experience| == |d.experience| + 1
    ensures r.experience[..|d.experience|] == d.experience
    ensures forall f :: ExperienceValue(r.experience[|d.experience|], f) == ""
    ensures r.personal == d.personal && r.education == d.education
    ensures r.skills == d.skills && r.achievements == d.achievements
    ensures Valid(d) ==> Valid(r)
  {
    d.(experience := d.experience + [BlankExperience])
  }

  /** updateEducation(index, f, v): as updateExperience, on the education list. */
  function UpdateEducation(d: Document, index: int, f: EducationField, v: string): (r: Document)
    ensures |r.education| == |d.education|
    ensures forall k :: 0 <= k < |d.education| && k != index ==> r.education[k] == d.education[k]
    ensures 0 <= index < |d.education| ==>
              && EducationValue(r.education[index], f) == v
              && forall g :: g != f ==> EducationValue(r.education[index], g) == EducationValue(d.education[index], g)
    ensures !(0 <= index < |d.education|) ==> r == d
    ensures r.personal == d.personal && r.experience == d.experience
    ensures r.skills == d.skills && r.achievements == d.achievements
    ensures Valid(d) ==> Valid(r)
  {
    d.(education := Lists.UpdateAt(d.education, index, e => WithEducation(e, f, v)))
  }

  /** addEducation(): one fully blank entry is appended after the existing
      entries, which are kept as they were. */
  function AddEducation(d: Document): (r: Document)
    ensures |r.education| == |d.education| + 1
    ensures r.education[..|d.education|] == d.education
    ensures forall f :: EducationValue(r.education[|d.education|], f) == ""
    ensures r.personal == d.personal && r.experience == d.experience
    ensures r.skills == d.skills && r.achievements == d.achievements
    ensures Valid(d) ==> Valid(r)
  {
    d.(education := d.education + [BlankEducation])
  }

  /** The transform inside addSkill: item goes to the end of the skills list.
      The editor only calls it with a non-empty trimmed item, which keeps the
      document valid. */
  function AppendSkill(d: Document, item: string): (r: Document)
    ensures |r.skills| == |d.skills| + 1
    ensures r.skills[..|d.skills|] == d.skills && r.skills[|d.skills|] == item
    ensures r.personal == d.personal && r.experience == d.experience && r.education == d.education
    ensures r.achievements == d.achievements
    ensures Valid(d) && IsListItem(item) ==> Valid(r)
  {
    d.(skills := d.skills + [item])
  }

  /** The transform inside addAchievement: item goes to the end of the
      achievements list. */
  function AppendAchievement(d: Document, item: string): (r: Document)
    ensures |r.achievements| == |d.achievements| + 1
    ensures r.achievements[..|d.achievements|] == d.achievements && r.achievements[|d.achievements|] == item
    ensures r.personal == d.personal && r.experience == d.experience && r.education == d.education
    ensures r.skills == d.skills
    ensures Valid(d) && IsListItem(item) ==> Valid(r)
  {
    d.(achievements := d.achievements + [item])
  }

  /** removeSkill(index): the skill at index is dropped and the others keep
      their order; an index outside the list changes nothing. */
  function RemoveSkill(d: Document, index: int): (r: Document)
    ensures 0 <= index < |d.skills| ==>
              && |r.skills| == |d.skills| - 1
              && r.skills == d.skills[..index] + d.skills[index + 1..]
    ensures !(0 <= index < |d.skills|) ==> r == d
    ensures r.personal == d.personal && r.experience == d.experience && r.education == d.education
    ensures r.achievements == d.achievements
    ensures Valid(d) ==> Valid(r)
  {
    var r := d.(skills := Lists.WithoutIndex(d.skills, index));
    Lists.WithoutIndexSubset(d.skills, index);
    r
  }

  /** removeAchievement(index): the achievement at index is dropped and the
      others keep their order; an index outside the list changes nothing. */
  function RemoveAchievement(d: Document, index: int): (r: Document)
    ensures 0 <= index < |d.achievements| ==>
              && |r.achievements| == |d.achievements| - 1
              && r.achievements == d.achievements[..index] + d.achievements[index + 1..]
    ensures !(0 <= index < |d.achievements|) ==> r == d
    ensures r.personal == d.personal && r.experience == d.experience && r.education == d.education
    ensures r.skills == d.skills
    ensures Valid(d) ==> Valid(r)
  {
    var r := d.(achievements := Lists.WithoutIndex(d.achievements, index));
    Lists.WithoutIndexSubset(d.achievements, index);
    r
  }
}
