/**
 * The profile page's skill list: a text box whose trimmed content is
 * appended when it is non-empty and new, and a remove button per skill.
 */
module Profile {
  import opened JsArray
  import opened JsString

  const InitialSkills: seq<string> := ["React", "TypeScript", "Node.js", "PostgreSQL", "AWS"]

  lemma InitialSkillsDistinct()
    ensures Distinct(InitialSkills) && |InitialSkills| == 5
  {
  }

  /** The add handler's guard: the trimmed input is non-empty and not yet listed. */
  predicate AcceptsSkill(skills: seq<string>, input: string) {
    Trim(input) != "" && Trim(input) !in skills
  }

  function IsNot(skill: string): string -> bool {
    (s: string) => s != skill
  }

  /** `skills.filter((s) => s !== skill)`. */
  function SkillsWithout(skills: seq<string>, skill: string): (r: seq<string>)
    ensures skill !in r
    ensures IsSubsequence(r, skills)
    ensures forall k :: 0 <= k < |skills| && skills[k] != skill ==> skills[k] in r
    ensures forall k :: 0 <= k < |skills| && skills[k] != skill ==> multiset(r)[skills[k]] == multiset(skills)[skills[k]]
  {
    forall k | 0 <= k < |skills| && skills[k] != skill
      ensures multiset(Filter(skills, IsNot(skill)))[skills[k]] == multiset(skills)[skills[k]]
    {
      FilterMultiplicity(skills, IsNot(skill), skills[k]);
    }
    Filter(skills, IsNot(skill))
  }

  /** Removing a skill that is not listed changes nothing. */
  lemma RemoveAbsentUnchanged(skills: seq<string>, skill: string)
    requires skill !in skills
    ensures SkillsWithout(skills, skill) == skills
  {
    FilterKeepsAll(skills, IsNot(skill));
  }

  /** Removing keeps the list duplicate-free. */
  lemma RemovePreservesDistinct(skills: seq<string>, skill: string)
    requires Distinct(skills)
    ensures Distinct(SkillsWithout(skills, skill))
  {
    SubsequenceOfDistinct(SkillsWithout(skills, skill), skills);
  }

  /** An accepted add appends a new element, so the list stays duplicate-free
      and afterwards contains the trimmed input. */
  lemma AddPreservesDistinct(skills: seq<string>, input: string)
    requires Distinct(skills) && AcceptsSkill(skills, input)
    ensures Distinct(skills + [Trim(input)])
    ensures Trim(input) in skills + [Trim(input)]
  {
    var r := skills + [Trim(input)];
    forall i, j | 0 <= i < j < |r| ensures r[i] != r[j] {
      if j == |skills| {
        assert r[i] == skills[i];
      } else {
        assert r[i] == skills[i] && r[j] == skills[j];
      }
    }
  }

  /** Removing the skill just added gives back the list before the add. */
  lemma RemoveUndoesAdd(skills: seq<string>, input: string)
    requires AcceptsSkill(skills, input)
    ensures SkillsWithout(skills + [Trim(input)], Trim(input)) == skills
  {
    var t := Trim(input);
    FilterAppend(skills, [t], IsNot(t));
    FilterKeepsAll(skills, IsNot(t));
    FilterCons([t], IsNot(t));
  }

  datatype ProfileData = ProfileData(name: string, email: string, role: string, manager: string)

  const InitialProfile := ProfileData("John Doe", "john.doe@company.com", "Engineering Manager", "Jane Smith")

  /** The skill list, the new-skill input and the name input are editable only
      in edit mode; the add and remove controls are rendered only then. */
  class ProfilePage {
    var skills: seq<string>
    var newSkill: string
    var isEditing: bool
    var profileData: ProfileData

    /** The list never holds a skill twice. */
    ghost predicate Valid()
      reads this
    {
      Distinct(skills)
    }

    constructor ()
      ensures Valid()
      ensures skills == InitialSkills && newSkill == ""
      ensures !isEditing && profileData == InitialProfile
    {
      skills := InitialSkills;
      newSkill := "";
      isEditing := false;
      profileData := InitialProfile;
      InitialSkillsDistinct();
    }

    /** The header button: "Edit Profile" enters edit mode, "Save Changes"
        (`handleSave`) leaves it; the data is kept either way. */
    method HandleEditButton()
      modifies this
      ensures isEditing == !old(isEditing)
      ensures skills == old(skills) && newSkill == old(newSkill) && profileData == old(profileData)
    {
      if isEditing {
        isEditing := false;
      } else {
        isEditing := true;
      }
    }

    /** The name input; email, role and manager are read-only. */
    method SetName(name: string)
      requires isEditing
      modifies this
      ensures profileData == old(profileData).(name := name)
      ensures skills == old(skills) && newSkill == old(newSkill) && isEditing == old(isEditing)
    {
      profileData := profileData.(name := name);
    }

    method SetNewSkill(text: string)
      requires isEditing
      modifies this
      ensures newSkill == text
      ensures skills == old(skills) && isEditing == old(isEditing) && profileData == old(profileData)
    {
      newSkill := text;
    }

    /** Returns whether the skill was added. */
    method HandleAddSkill() returns (added: bool)
      requires Valid() && isEditing
      modifies this
      ensures Valid()
      ensures added <==> AcceptsSkill(old(skills), old(newSkill))
      ensures added ==> skills == old(skills) + [Trim(old(newSkill))] && newSkill == ""
      ensures !added ==> skills == old(skills) && newSkill == old(newSkill)
      ensures isEditing == old(isEditing) && profileData == old(profileData)
    {
      var trimmed := Trim(newSkill);
      added := trimmed != "" && trimmed !in skills;
      if added {
        AddPreservesDistinct(skills, newSkill);
        skills := skills + [trimmed];
        newSkill := "";
      }
    }

    method HandleRemoveSkill(skill: string)
      requires Valid() && isEditing
      modifies this
      ensures Valid()
      ensures skills == SkillsWithout(old(skills), skill)
      ensures newSkill == old(newSkill) && isEditing == old(isEditing) && profileData == old(profileData)
    {
      RemovePreservesDistinct(skills, skill);
      skills := SkillsWithout(skills, skill);
    }
  }
}
