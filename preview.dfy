/**
 * The live preview (`CVPreview`) as a pure projection of the document onto an
 * ordered list of rendered sections. Markup, classes and icons are reduced to
 * the data each section shows; a JavaScript falsy string (`""`) is what makes
 * a `cond && <element/>` render nothing.
 */
module Preview {
  import opened Resume

  datatype Option<T> = None | Some(value: T)

  /** The icon that precedes a contact line in the header. */
  datatype ContactIcon = MailIcon | PhoneIcon | MapPinIcon

  datatype Contact = Contact(icon: ContactIcon, text: string)

  /** One experience entry as shown: title (position), company, duration, and
      the description paragraph when there is one. */
  datatype ExperienceCard = ExperienceCard(position: string, company: string, duration: string, description: Option<string>)

  /** One education entry as shown: degree, institution, and the year and
      "GPA: …" lines when they are filled in. */
  datatype EducationCard = EducationCard(degree: string, institution: string, year: Option<string>, gpa: Option<string>)

  datatype Section =
    | Header(name: string, contacts: seq<Contact>)
    | SummarySection(text: string)
    | ExperienceSection(experienceCards: seq<ExperienceCard>)
    | EducationSection(educationCards: seq<EducationCard>)
    | SkillsSection(tags: seq<string>)
    | AchievementsSection(items: seq<string>)

  const PlaceholderName: string := "Your Name"
  const GpaPrefix: string := "GPA: "

  /** The place of a section in the fixed page order. */
  function Rank(s: Section): nat {
    match s
    case Header(_, _) => 0
    case SummarySection(_) => 1
    case ExperienceSection(_) => 2
    case EducationSection(_) => 3
    case SkillsSection(_) => 4
    case AchievementsSection(_) => 5
  }

  function IconRank(i: ContactIcon): nat {
    match i
    case MailIcon => 0
    case PhoneIcon => 1
    case MapPinIcon => 2
  }

  /** `fullName || "Your Name"`: the header never shows an empty name. */
  function HeaderName(p: Personal): (name: string)
    ensures name != ""
    ensures p.fullName != "" ==> name == p.fullName
    ensures p.fullName == "" ==> name == PlaceholderName
  {
    if p.fullName != "" then p.fullName else PlaceholderName
  }

  /** The contact row: email, phone and location, each present exactly when it
      is non-empty and shown with its own icon, never an empty line, always in
      that order. */
  function Contacts(p: Personal): (cs: seq<Contact>)
    ensures |cs| <= 3
    ensures forall c :: c in cs ==>
              c in [Contact(MailIcon, p.email), Contact(PhoneIcon, p.phone), Contact(MapPinIcon, p.location)]
    ensures forall i :: 0 <= i < |cs| ==> cs[i].text != ""
    ensures Contact(MailIcon, p.email) in cs <==> p.email != ""
    ensures Contact(PhoneIcon, p.phone) in cs <==> p.phone != ""
    ensures Contact(MapPinIcon, p.location) in cs <==> p.location != ""
    ensures forall i, j :: 0 <= i < j < |cs| ==> IconRank(cs[i].icon) < IconRank(cs[j].icon)
  {
    (if p.email != "" then [Contact(MailIcon, p.email)] else [])
    + (if p.phone != "" then [Contact(PhoneIcon, p.phone)] else [])
    + (if p.location != "" then [Contact(MapPinIcon, p.location)] else [])
  }

  /** `exp.company || exp.position`: the entry is worth showing. */
  predicate ShowsExperience(e: Experience) {
    e.company != "" || e.position != ""
  }

  /** `edu.institution || edu.degree`: the entry is worth showing. */
  predicate ShowsEducation(e: Education) {
    e.institution != "" || e.degree != ""
  }

  /** `experience.some(...)`: the experience section is rendered. */
  predicate HasExperience(xs: seq<Experience>) {
    exists k :: 0 <= k < |xs| && ShowsExperience(xs[k])
  }

  /** `education.some(...)`: the education section is rendered. */
  predicate HasEducation(xs: seq<Education>) {
    exists k :: 0 <= k < |xs| && ShowsEducation(xs[k])
  }

  /** The card of one experience entry: position, company and duration as
      entered, and the description line only when there is a description. */
  function ExperienceCardOf(e: Experience): (r: ExperienceCard)
    ensures r.position == e.position && r.company == e.company && r.duration == e.duration
    ensures r.description.Some? <==> e.description != ""
    ensures r.description.Some? ==> r.description.value == e.description
  {
    ExperienceCard(e.position, e.company, e.duration, if e.description != "" then Some(e.description) else None)
  }

  /** The card of one education entry: degree and institution as entered, the
      year line only when there is a year, and the GPA line, labelled, only
      when there is a GPA. */
  function EducationCardOf(e: Education): (r: EducationCard)
    ensures r.degree == e.degree && r.institution == e.institution
    ensures r.year.Some? <==> e.year != ""
    ensures r.year.Some? ==> r.year.value == e.year
    ensures r.gpa.Some? <==> e.gpa != ""
    ensures r.gpa.Some? ==> r.gpa.value == GpaPrefix + e.gpa
  {
    EducationCard(e.degree, e.institution,
                  if e.year != "" then Some(e.year) else None,
                  if e.gpa != "" then Some(GpaPrefix + e.gpa) else None)
  }

  /** `xs.map((x, i) => shown(x) && card(x))` as React renders it: the cards
      of the entries that are shown, in list order; never more cards than
      entries. */
  function Cards<T, C>(xs: seq<T>, shown: T -> bool, card: T -> C): (cs: seq<C>)
    ensures |cs| <= |xs|
    decreases |xs|
  {
    if xs == [] then []
    else (if shown(xs[0]) then [card(xs[0])] else []) + Cards(xs[1..], shown, card)
  }

  /** The cards are empty exactly when no entry is shown. */
  lemma {:induction false} CardsEmpty<T, C>(xs: seq<T>, shown: T -> bool, card: T -> C)
    ensures Cards(xs, shown, card) == [] <==> forall k :: 0 <= k < |xs| ==> !shown(xs[k])
    decreases |xs|
  {
    if xs != [] {
      CardsEmpty(xs[1..], shown, card);
      assert forall k :: 1 <= k < |xs| ==> xs[k] == xs[1..][k - 1];
    }
  }

  /** Every card comes from an entry that is shown: nothing else is rendered. */
  lemma {:induction false} CardsFromShown<T, C>(xs: seq<T>, shown: T -> bool, card: T -> C, c: C)
    requires c in Cards(xs, shown, card)
    ensures exists k :: 0 <= k < |xs| && shown(xs[k]) && c == card(xs[k])
    decreases |xs|
  {
    if c in Cards(xs[1..], shown, card) {
      CardsFromShown(xs[1..], shown, card, c);
      var k :| 0 <= k < |xs[1..]| && shown(xs[1..][k]) && c == card(xs[1..][k]);
      assert xs[1..][k] == xs[k + 1];
    } else {
      assert shown(xs[0]) && c == card(xs[0]);
    }
  }

  /** The cards of a concatenation are the cards of each part, in order. */
  lemma {:induction false} CardsAppend<T, C>(xs: seq<T>, ys: seq<T>, shown: T -> bool, card: T -> C)
    ensures Cards(xs + ys, shown, card) == Cards(xs, shown, card) + Cards(ys, shown, card)
    decreases |xs|
  {
    if xs == [] {
      assert xs + ys == ys;
    } else {
      var head := if shown(xs[0]) then [card(xs[0])] else [];
      assert (xs + ys)[0] == xs[0];
      assert (xs + ys)[1..] == xs[1..] + ys;
      assert Cards(xs + ys, shown, card) == head + Cards(xs[1..] + ys, shown, card);
      CardsAppend(xs[1..], ys, shown, card);
    }
  }

  /** Every shown entry is rendered, and it is rendered right after the cards
      of the entries before it: the cards list exactly the shown entries, in
      list order. */
  lemma CardAt<T, C>(xs: seq<T>, k: int, shown: T -> bool, card: T -> C)
    requires 0 <= k < |xs| && shown(xs[k])
    ensures |Cards(xs[..k], shown, card)| < |Cards(xs, shown, card)|
    ensures Cards(xs, shown, card)[|Cards(xs[..k], shown, card)|] == card(xs[k])
  {
    assert xs == xs[..k] + xs[k..];
    CardsAppend(xs[..k], xs[k..], shown, card);
    assert Cards(xs[k..], shown, card)[0] == card(xs[k]);
  }

  /** An entry that is not shown contributes nothing: appending it leaves the
      cards unchanged. */
  lemma CardsSkipHidden<T, C>(xs: seq<T>, x: T, shown: T -> bool, card: T -> C)
    requires !shown(x)
    ensures Cards(xs + [x], shown, card) == Cards(xs, shown, card)
  {
    CardsAppend(xs, [x], shown, card);
    assert Cards([x], shown, card) == [];
  }

  /** Section ranks strictly increase along the page. */
  predicate InOrder(r: seq<Section>) {
    forall i, j :: 0 <= i < j < |r| ==> Rank(r[i]) < Rank(r[j])
  }

  /** The page layout: the header, then each section whose content is present,
      in the fixed order summary, experience, education, skills, achievements.
      A `None` is a `cond && <section/>` whose condition is false. */
  function Layout(
    header: Section,
    summary: Option<string>,
    experience: Option<seq<ExperienceCard>>,
    education: Option<seq<EducationCard>>,
    skills: Option<seq<string>>,
    achievements: Option<seq<string>>): (r: seq<Section>)
    ensures |r| >= 1 && r[0] == header
  {
    [header]
    + (if summary.Some? then [SummarySection(summary.value)] else [])
    + (if experience.Some? then [ExperienceSection(experience.value)] else [])
    + (if education.Some? then [EducationSection(education.value)] else [])
    + (if skills.Some? then [SkillsSection(skills.value)] else [])
    + (if achievements.Some? then [AchievementsSection(achievements.value)] else [])
  }

  /** Appending at most one section of a higher rank keeps the page in order. */
  lemma AppendInOrder(r: seq<Section>, o: seq<Section>, rank: nat)
    requires InOrder(r)
    requires forall i :: 0 <= i < |r| ==> Rank(r[i]) < rank
    requires |o| <= 1 && forall t :: t in o ==> Rank(t) == rank
    ensures InOrder(r + o)
    ensures forall i :: 0 <= i < |r + o| ==> Rank((r + o)[i]) <= rank
  {
  }

  /** Whatever the contents, the layout is in the fixed order, with each
      section at most once and the header, of the lowest rank, only first. */
  lemma LayoutInOrder(
    header: Section,
    summary: Option<string>,
    experience: Option<seq<ExperienceCard>>,
    education: Option<seq<EducationCard>>,
    skills: Option<seq<string>>,
    achievements: Option<seq<string>>)
    requires header.Header?
    ensures InOrder(Layout(header, summary, experience, education, skills, achievements))
  {
    var o1 := if summary.Some? then [SummarySection(summary.value)] else [];
    var o2 := if experience.Some? then [ExperienceSection(experience.value)] else [];
    var o3 := if education.Some? then [EducationSection(education.value)] else [];
    var o4 := if skills.Some? then [SkillsSection(skills.value)] else [];
    var o5 := if achievements.Some? then [AchievementsSection(achievements.value)] else [];
    AppendInOrder([header], o1, 1);
    var r1 := [header] + o1;
    AppendInOrder(r1, o2, 2);
    var r2 := r1 + o2;
    AppendInOrder(r2, o3, 3);
    var r3 := r2 + o3;
    AppendInOrder(r3, o4, 4);
    var r4 := r3 + o4;
    AppendInOrder(r4, o5, 5);
  }

  /** A section is in the layout iff it is the header or a present section. */
  lemma LayoutMembers(
    header: Section,
    summary: Option<string>,
    experience: Option<seq<ExperienceCard>>,
    education: Option<seq<EducationCard>>,
    skills: Option<seq<string>>,
    achievements: Option<seq<string>>,
    s: Section)
    ensures s in Layout(header, summary, experience, education, skills, achievements) <==>
      || s == header
      || (summary.Some? && s == SummarySection(summary.value))
      || (experience.Some? && s == ExperienceSection(experience.value))
      || (education.Some? && s == EducationSection(education.value))
      || (skills.Some? && s == SkillsSection(skills.value))
      || (achievements.Some? && s == AchievementsSection(achievements.value))
  {
  }

  /** The header: the name with its fallback, and the contact row. */
  function HeaderOf(p: Personal): Section {
    Header(HeaderName(p), Contacts(p))
  }

  /** `summary && …`: the summary paragraph, if there is a summary. */
  function SummaryOf(p: Personal): Option<string> {
    if p.summary != "" then Some(p.summary) else None
  }

  /** `experience.some(…) && …`: the experience cards, if some entry is shown. */
  function ExperienceOf(xs: seq<Experience>): Option<seq<ExperienceCard>> {
    if HasExperience(xs) then Some(Cards(xs, ShowsExperience, ExperienceCardOf)) else None
  }

  /** `education.some(…) && …`: the education cards, if some entry is shown. */
  function EducationOf(xs: seq<Education>): Option<seq<EducationCard>> {
    if HasEducation(xs) then Some(Cards(xs, ShowsEducation, EducationCardOf)) else None
  }

  /** `list.length > 0 && …`: the items, if there are any. */
  function ItemsOf(items: seq<string>): Option<seq<string>> {
    if |items| > 0 then Some(items) else None
  }

  /** CVPreview: the header, then the summary if non-empty, the experience
      and education cards if some entry is shown, and the skills and
      achievements if their lists are non-empty. */
  function Render(d: Document): (r: seq<Section>)
    ensures |r| >= 1 && r[0] == Header(HeaderName(d.personal), Contacts(d.personal))
  {
    Layout(HeaderOf(d.personal), SummaryOf(d.personal), ExperienceOf(d.experience),
           EducationOf(d.education), ItemsOf(d.skills), ItemsOf(d.achievements))
  }

  /** The page is in the fixed order header, summary, experience, education,
      skills, achievements, each at most once. As the header comes first and
      has the lowest rank, there is no second header. */
  lemma RenderInOrder(d: Document)
    ensures InOrder(Render(d))
  {
    LayoutInOrder(HeaderOf(d.personal), SummaryOf(d.personal), ExperienceOf(d.experience),
                  EducationOf(d.education), ItemsOf(d.skills), ItemsOf(d.achievements));
  }

  /** The sections of a page: the header, and each optional section whose
      condition holds. */
  lemma RenderMembers(d: Document, s: Section)
    ensures s in Render(d) <==>
      || s == Header(HeaderName(d.personal), Contacts(d.personal))
      || (s == SummarySection(d.personal.summary) && d.personal.summary != "")
      || (s == ExperienceSection(Cards(d.experience, ShowsExperience, ExperienceCardOf)) && HasExperience(d.experience))
      || (s == EducationSection(Cards(d.education, ShowsEducation, EducationCardOf)) && HasEducation(d.education))
      || (s == SkillsSection(d.skills) && d.skills != [])
      || (s == AchievementsSection(d.achievements) && d.achievements != [])
  {
  }

  /** The summary paragraph is shown exactly when the summary is non-empty. */
  lemma RenderSummary(d: Document)
    ensures SummarySection(d.personal.summary) in Render(d) <==> d.personal.summary != ""
    ensures forall s :: s in Render(d) && s.SummarySection? ==> s.text == d.personal.summary
  {
    forall s | s in Render(d) ensures s.SummarySection? ==> s.text == d.personal.summary {
      RenderMembers(d, s);
    }
    RenderMembers(d, SummarySection(d.personal.summary));
  }

  /** The experience section is shown exactly when some entry has a company or
      a position; it is then never empty and lists the cards of exactly those
      entries. */
  lemma RenderExperience(d: Document)
    ensures (exists s :: s in Render(d) && s.ExperienceSection?) <==> HasExperience(d.experience)
    ensures forall s :: s in Render(d) && s.ExperienceSection? ==>
              && s.experienceCards == Cards(d.experience, ShowsExperience, ExperienceCardOf)
              && s.experienceCards != []
  {
    forall s | s in Render(d)
      ensures s.ExperienceSection? ==> HasExperience(d.experience) && s.experienceCards == Cards(d.experience, ShowsExperience, ExperienceCardOf)
    {
      RenderMembers(d, s);
    }
    RenderMembers(d, ExperienceSection(Cards(d.experience, ShowsExperience, ExperienceCardOf)));
    CardsEmpty(d.experience, ShowsExperience, ExperienceCardOf);
  }

  /** The education section is shown exactly when some entry has an
      institution or a degree; it is then never empty and lists the cards of
      exactly those entries. */
  lemma RenderEducation(d: Document)
    ensures (exists s :: s in Render(d) && s.EducationSection?) <==> HasEducation(d.education)
    ensures forall s :: s in Render(d) && s.EducationSection? ==>
              && s.educationCards == Cards(d.education, ShowsEducation, EducationCardOf)
              && s.educationCards != []
  {
    forall s | s in Render(d)
      ensures s.EducationSection? ==> HasEducation(d.education) && s.educationCards == Cards(d.education, ShowsEducation, EducationCardOf)
    {
      RenderMembers(d, s);
    }
    RenderMembers(d, EducationSection(Cards(d.education, ShowsEducation, EducationCardOf)));
    CardsEmpty(d.education, ShowsEducation, EducationCardOf);
  }

  /** The skills and achievements sections are shown exactly when their lists
      are non-empty, and then show every item in list order. */
  lemma RenderLists(d: Document)
    ensures SkillsSection(d.skills) in Render(d) <==> d.skills != []
    ensures forall s :: s in Render(d) && s.SkillsSection? ==> s.tags == d.skills
    ensures AchievementsSection(d.achievements) in Render(d) <==> d.achievements != []
    ensures forall s :: s in Render(d) && s.AchievementsSection? ==> s.items == d.achievements
  {
    forall s | s in Render(d)
      ensures s.SkillsSection? ==> s.tags == d.skills
      ensures s.AchievementsSection? ==> s.items == d.achievements
    {
      RenderMembers(d, s);
    }
    RenderMembers(d, SkillsSection(d.skills));
    RenderMembers(d, AchievementsSection(d.achievements));
  }

  /** Adding a blank experience entry does not change the preview: the new
      entry has neither company nor position. */
  lemma AddExperienceKeepsPreview(d: Document)
    ensures Render(AddExperience(d)) == Render(d)
  {
    CardsSkipHidden(d.experience, BlankExperience, ShowsExperience, ExperienceCardOf);
    var xs := AddExperience(d).experience;
    assert HasExperience(xs) ==> HasExperience(d.experience) by {
      if HasExperience(xs) {
        var k :| 0 <= k < |xs| && ShowsExperience(xs[k]);
        assert k < |d.experience| && xs[k] == d.experience[k];
      }
    }
    assert HasExperience(d.experience) ==> HasExperience(xs) by {
      if HasExperience(d.experience) {
        var k :| 0 <= k < |d.experience| && ShowsExperience(d.experience[k]);
        assert xs[k] == d.experience[k];
      }
    }
  }

  /** Adding a blank education entry does not change the preview either. */
  lemma AddEducationKeepsPreview(d: Document)
    ensures Render(AddEducation(d)) == Render(d)
  {
    CardsSkipHidden(d.education, BlankEducation, ShowsEducation, EducationCardOf);
    var xs := AddEducation(d).education;
    assert HasEducation(xs) ==> HasEducation(d.education) by {
      if HasEducation(xs) {
        var k :| 0 <= k < |xs| && ShowsEducation(xs[k]);
        assert k < |d.education| && xs[k] == d.education[k];
      }
    }
    assert HasEducation(d.education) ==> HasEducation(xs) by {
      if HasEducation(d.education) {
        var k :| 0 <= k < |d.education| && ShowsEducation(d.education[k]);
        assert xs[k] == d.education[k];
      }
    }
  }

  /** The initial document previews as the placeholder header alone. */
  lemma InitialPreview()
    ensures Render(Initial()) == [Header(PlaceholderName, [])]
  {
    var d := Initial();
    assert !HasExperience(d.experience);
    assert !HasEducation(d.education);
  }

  /** Of several experience entries only the one with a position filled in is
      rendered, and the section is there because of it. */
  lemma SingleEntryPreview(position: string)
    requires position != ""
    ensures var entry := Experience("", position, "", "");
            var d := Initial().(experience := [BlankExperience, entry, BlankExperience]);
            ExperienceSection([ExperienceCardOf(entry)]) in Render(d)
  {
    var entry := Experience("", position, "", "");
    var xs := [BlankExperience, entry, BlankExperience];
    assert ShowsExperience(xs[1]);
    assert xs == [BlankExperience] + [entry] + [BlankExperience];
    CardsAppend([BlankExperience] + [entry], [BlankExperience], ShowsExperience, ExperienceCardOf);
    CardsAppend([BlankExperience], [entry], ShowsExperience, ExperienceCardOf);
    assert Cards(xs, ShowsExperience, ExperienceCardOf) == [ExperienceCardOf(entry)];
  }
}
