/**
 * The job seeker's profile form (src/components/dashboard/ProfileForm.tsx):
 * the editable skill list with its trimmed, case-sensitive, no-duplicate
 * insert and its remove-all-equal, and the payload handed to the page on
 * submit.
 */
module ProfileForm {
  import opened Remote
  import Text
  import Lists

  /** The form fields react-hook-form collects. */
  datatype ProfileData = ProfileData(full_name: string, bio: string, resume_url: string, avatar_url: string)

  /** What `handleFormSubmit` passes to `onSubmit`: the form fields plus the skill list. */
  datatype ProfileSubmission = ProfileSubmission(
    full_name: string,
    bio: string,
    resume_url: string,
    avatar_url: string,
    skills: seq<string>)

  /** The full-name field's only rule: required, so the empty string is refused. */
  function FullNameError(name: string): (r: Option<string>)
    ensures r.None? <==> name != []
    ensures r.Some? ==> r.value == "Full name is required"
  {
    if name == "" then Some("Full name is required") else None
  }

  function IsNot(skill: string): string -> bool
  {
    (s: string) => s != skill
  }

  /** `skills.filter(skill => skill !== skillToRemove)`. */
  function WithoutSkill(skills: seq<string>, skill: string): (r: seq<string>)
    ensures skill !in r
    ensures Lists.IsSubsequence(r, skills)
    ensures forall i :: 0 <= i < |skills| && skills[i] != skill ==> skills[i] in r
    ensures forall x :: x in r <==> x in skills && x != skill
    ensures forall x :: multiset(r)[x] == if x != skill then multiset(skills)[x] else 0
  {
    var r := Lists.Filter(skills, IsNot(skill));
    assert forall i :: 0 <= i < |r| ==> IsNot(skill)(r[i]);
    assert forall i :: 0 <= i < |skills| && skills[i] != skill ==> IsNot(skill)(skills[i]);
    assert forall x :: IsNot(skill)(x) == (x != skill);
    r
  }

  /** The list `addSkill` leaves for an already-trimmed, non-empty entry. */
  function WithSkill(skills: seq<string>, skill: string): (r: seq<string>)
    ensures skill in r
    ensures skill in skills ==> r == skills
    ensures skill !in skills ==> r == skills + [skill]
  {
    if skill in skills then skills else skills + [skill]
  }

  /** Adding keeps a repeat-free list repeat-free. */
  lemma WithSkillKeepsDistinct(skills: seq<string>, skill: string)
    requires Lists.Distinct(skills)
    ensures Lists.Distinct(WithSkill(skills, skill))
  {
  }

  /** Removing keeps a repeat-free list repeat-free. */
  lemma WithoutSkillKeepsDistinct(skills: seq<string>, skill: string)
    requires Lists.Distinct(skills)
    ensures Lists.Distinct(WithoutSkill(skills, skill))
  {
    Lists.FilterKeepsDistinct(skills, IsNot(skill));
  }

  /** Removing a skill and adding it back moves it to the end. */
  lemma RemoveThenAddMovesToEnd(skills: seq<string>, skill: string)
    ensures WithSkill(WithoutSkill(skills, skill), skill) == WithoutSkill(skills, skill) + [skill]
  {
  }

  /** Adding a skill twice is the same as adding it once. */
  lemma WithSkillIdempotent(skills: seq<string>, skill: string)
    ensures WithSkill(WithSkill(skills, skill), skill) == WithSkill(skills, skill)
  {
  }

  /** One edit of the skill list: the Add button with the input's text, or a
      chip's remove button. */
  datatype SkillEdit = Add(input: string) | Remove(skill: string)

  /** The list after one edit, as `addSkill` and `removeSkill` leave it. */
  function ApplyEdit(skills: seq<string>, edit: SkillEdit): (r: seq<string>)
    ensures edit.Add? && Text.Trim(edit.input) == [] ==> r == skills
    ensures edit.Add? && Text.Trim(edit.input) != [] ==> r == WithSkill(skills, Text.Trim(edit.input))
    ensures edit.Remove? ==> r == WithoutSkill(skills, edit.skill)
  {
    match edit
    case Add(input) => if Text.Trim(input) == [] then skills else WithSkill(skills, Text.Trim(input))
    case Remove(skill) => WithoutSkill(skills, skill)
  }

  /** The list after a series of edits, applied first to last. */
  function ApplyEdits(skills: seq<string>, edits: seq<SkillEdit>): seq<string>
    decreases |edits|
  {
    if edits == [] then skills else ApplyEdits(ApplyEdit(skills, edits[0]), edits[1..])
  }

  /** Starting from a list without repeats, no series of adds and removes
      introduces a repeat. */
  lemma {:induction false} EditsKeepDistinct(skills: seq<string>, edits: seq<SkillEdit>)
    requires Lists.Distinct(skills)
    ensures Lists.Distinct(ApplyEdits(skills, edits))
    decreases |edits|
  {
    if edits != [] {
      match edits[0] {
        case Add(input) =>
          if Text.Trim(input) != [] {
            WithSkillKeepsDistinct(skills, Text.Trim(input));
          }
        case Remove(skill) =>
          WithoutSkillKeepsDistinct(skills, skill);
      }
      EditsKeepDistinct(ApplyEdit(skills, edits[0]), edits[1..]);
    }
  }

  /** The form's skill state. The react-hook-form fields live in the library. */
  class ProfileFormState {
    var skills: seq<string>
    var newSkill: string
    var isSubmitting: bool

    /** `initialData?.skills || []`: a missing list starts empty. */
    constructor (initialSkills: Option<seq<string>>)
      ensures skills == (if initialSkills.Some? then initialSkills.value else [])
      ensures newSkill == [] && !isSubmitting
    {
      skills := if initialSkills.Some? then initialSkills.value else [];
      newSkill := "";
      isSubmitting := false;
    }

    /** The skill input's `onChange`. */
    method SetNewSkill(text: string)
      modifies this
      ensures newSkill == text
      ensures skills == old(skills) && isSubmitting == old(isSubmitting)
    {
      newSkill := text;
    }

    /**
     * `addSkill`: a blank entry changes nothing (the input is not cleared);
     * otherwise the trimmed entry is appended unless already present, and the
     * input is cleared either way.
     */
    method AddSkill()
      modifies this
      ensures isSubmitting == old(isSubmitting)
      ensures Text.Trim(old(newSkill)) == [] ==> skills == old(skills) && newSkill == old(newSkill)
      ensures Text.Trim(old(newSkill)) != [] ==>
        skills == WithSkill(old(skills), Text.Trim(old(newSkill))) && newSkill == []
      ensures Lists.Distinct(old(skills)) ==> Lists.Distinct(skills)
    {
      var entry := Text.Trim(newSkill);
      if entry == [] {
        return;
      }
      if Lists.Distinct(skills) {
        WithSkillKeepsDistinct(skills, entry);
      }
      if entry !in skills {
        skills := skills + [entry];
      }
      newSkill := "";
    }

    /** `removeSkill`: every entry equal to the given one goes, the rest stay in order. */
    method RemoveSkill(skill: string)
      modifies this
      ensures skills == WithoutSkill(old(skills), skill)
      ensures newSkill == old(newSkill) && isSubmitting == old(isSubmitting)
      ensures Lists.Distinct(old(skills)) ==> Lists.Distinct(skills)
    {
      if Lists.Distinct(skills) {
        WithoutSkillKeepsDistinct(skills, skill);
      }
      skills := WithoutSkill(skills, skill);
    }

    /**
     * `handleFormSubmit`: the payload is the form data with `skills` set to the
     * current list; `outcome` is how `onSubmit` ends. The `finally` clears
     * `isSubmitting` in both cases, and a failure is passed on to the caller.
     */
    method HandleFormSubmit(data: ProfileData, outcome: Write) returns (payload: ProfileSubmission, failed: bool)
      modifies this
      ensures payload == ProfileSubmission(data.full_name, data.bio, data.resume_url, data.avatar_url, skills)
      ensures failed <==> outcome.Failed?
      ensures !isSubmitting
      ensures skills == old(skills) && newSkill == old(newSkill)
    {
      isSubmitting := true;
      payload := ProfileSubmission(data.full_name, data.bio, data.resume_url, data.avatar_url, skills);
      failed := outcome.Failed?;
      isSubmitting := false;
    }
  }
}
