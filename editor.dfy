/**
 * The editor component's state: the document (`cvData`), the current wizard
 * step (`currentStep`) and the two staging buffers (`newSkill`,
 * `newAchievement`). Each handler is a method; the document itself is only
 * ever replaced by one of the transforms of module Resume.
 */
module Editor {
  import opened Text
  import Resume
  import Wizard

  class CvEditor {
    var doc: Resume.Document
    var step: int
    var newSkill: string
    var newAchievement: string

    /** The step is an index of the steps list and the document keeps its
        invariant. */
    ghost predicate Valid()
      reads this
    {
      Wizard.IsStep(step) && Resume.Valid(doc)
    }

    /** The state on mount: the initial document, the first step, empty buffers. */
    constructor ()
      ensures Valid()
      ensures doc == Resume.Initial() && step == 0
      ensures newSkill == "" && newAchievement == ""
    {
      doc := Resume.Initial();
      step := 0;
      newSkill := "";
      newAchievement := "";
    }

    method UpdatePersonal(f: Resume.PersonalField, v: string)
      requires Valid()
      modifies this
      ensures Valid()
      ensures doc == Resume.UpdatePersonal(old(doc), f, v)
      ensures step == old(step) && newSkill == old(newSkill) && newAchievement == old(newAchievement)
    {
      doc := Resume.UpdatePersonal(doc, f, v);
    }

    method UpdateExperience(index: int, f: Resume.ExperienceField, v: string)
      requires Valid()
      modifies this
      ensures Valid()
      ensures doc == Resume.UpdateExperience(old(doc), index, f, v)
      ensures step == old(step) && newSkill == old(newSkill) && newAchievement == old(newAchievement)
    {
      doc := Resume.UpdateExperience(doc, index, f, v);
    }

    method AddExperience()
      requires Valid()
      modifies this
      ensures Valid()
      ensures doc == Resume.AddExperience(old(doc))
      ensures step == old(step) && newSkill == old(newSkill) && newAchievement == old(newAchievement)
    {
      doc := Resume.AddExperience(doc);
    }

    method UpdateEducation(index: int, f: Resume.EducationField, v: string)
      requires Valid()
      modifies this
      ensures Valid()
      ensures doc == Resume.UpdateEducation(old(doc), index, f, v)
      ensures step == old(step) && newSkill == old(newSkill) && newAchievement == old(newAchievement)
    {
      doc := Resume.UpdateEducation(doc, index, f, v);
    }

    method AddEducation()
      requires Valid()
      modifies this
      ensures Valid()
      ensures doc == Resume.AddEducation(old(doc))
      ensures step == old(step) && newSkill == old(newSkill) && newAchievement == old(newAchievement)
    {
      doc := Resume.AddEducation(doc);
    }

    /** Typing into the skill input (its onChange handler). */
    method SetNewSkill(value: string)
      requires Valid()
      modifies this
      ensures Valid()
      ensures newSkill == value
      ensures doc == old(doc) && step == old(step) && newAchievement == old(newAchievement)
    {
      newSkill := value;
    }

    /** Typing into the achievement input (its onChange handler). */
    method SetNewAchievement(value: string)
      requires Valid()
      modifies this
      ensures Valid()
      ensures newAchievement == value
      ensures doc == old(doc) && step == old(step) && newSkill == old(newSkill)
    {
      newAchievement := value;
    }

    /** addSkill (the Add button and the Enter key): a buffer that trims to
        something non-empty is appended trimmed and the buffer is cleared; a
        blank buffer changes nothing, not even the buffer. */
    method AddSkill()
      requires Valid()
      modifies this
      ensures Valid()
      ensures Trim(old(newSkill)) != "" ==>
                doc == Resume.AppendSkill(old(doc), Trim(old(newSkill))) && newSkill == ""
      ensures Trim(old(newSkill)) == "" ==> doc == old(doc) && newSkill == old(newSkill)
      ensures step == old(step) && newAchievement == old(newAchievement)
    {
      var item := Trim(newSkill);
      if item != "" {
        TrimmedIsListItem(newSkill);
        doc := Resume.AppendSkill(doc, item);
        newSkill := "";
      }
    }

    /** addAchievement: as addSkill, for the achievement buffer and list. */
    method AddAchievement()
      requires Valid()
      modifies this
      ensures Valid()
      ensures Trim(old(newAchievement)) != "" ==>
                doc == Resume.AppendAchievement(old(doc), Trim(old(newAchievement))) && newAchievement == ""
      ensures Trim(old(newAchievement)) == "" ==> doc == old(doc) && newAchievement == old(newAchievement)
      ensures step == old(step) && newSkill == old(newSkill)
    {
      var item := Trim(newAchievement);
      if item != "" {
        TrimmedIsListItem(newAchievement);
        doc := Resume.AppendAchievement(doc, item);
        newAchievement := "";
      }
    }

    /** Clicking a skill tag removes it. */
    method RemoveSkill(index: int)
      requires Valid()
      modifies this
      ensures Valid()
      ensures doc == Resume.RemoveSkill(old(doc), index)
      ensures step == old(step) && newSkill == old(newSkill) && newAchievement == old(newAchievement)
    {
      doc := Resume.RemoveSkill(doc, index);
    }

    /** Clicking an achievement removes it. */
    method RemoveAchievement(index: int)
      requires Valid()
      modifies this
      ensures Valid()
      ensures doc == Resume.RemoveAchievement(old(doc), index)
      ensures step == old(step) && newSkill == old(newSkill) && newAchievement == old(newAchievement)
    {
      doc := Resume.RemoveAchievement(doc, index);
    }

    /** A step button: `setCurrentStep(index)`, where index runs over the
        steps list, so it is always a valid step. */
    method GoToStep(index: int)
      requires Valid()
      requires Wizard.IsStep(index)
      modifies this
      ensures Valid()
      ensures step == index
      ensures doc == old(doc) && newSkill == old(newSkill) && newAchievement == old(newAchievement)
    {
      step := index;
    }

    /** The Previous button. */
    method PreviousStep()
      requires Valid()
      modifies this
      ensures Valid()
      ensures step == Wizard.Previous(old(step))
      ensures doc == old(doc) && newSkill == old(newSkill) && newAchievement == old(newAchievement)
    {
      step := Wizard.Previous(step);
    }

    /** The Next button. */
    method NextStep()
      requires Valid()
      modifies this
      ensures Valid()
      ensures step == Wizard.Next(old(step))
      ensures doc == old(doc) && newSkill == old(newSkill) && newAchievement == old(newAchievement)
    {
      step := Wizard.Next(step);
    }
  }

  /** A short session: a padded skill goes in trimmed, a blank one is refused,
      the first skill is removed again, and Previous on the first step stays. */
  method Session()
  {
    var e := new CvEditor();
    e.SetNewSkill("Go ");
    e.AddSkill();
    TrimExamples();
    assert e.doc.skills == ["Go"] && e.newSkill == "";
    e.SetNewSkill("  ");
    e.AddSkill();
    assert e.doc.skills == ["Go"] && e.newSkill == "  ";
    e.RemoveSkill(0);
    assert e.doc.skills == [];
    e.PreviousStep();
    assert e.step == 0;
    e.GoToStep(3);
    e.NextStep();
    assert e.step == 3;
  }
}
