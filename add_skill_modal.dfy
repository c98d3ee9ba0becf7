/**
 * The Add Skill dialog: a name, a category and a level, an Add action
 * guarded by a non-blank name and a chosen category, and every way of
 * leaving the dialog resetting the form to its defaults.
 */
module AddSkillModal {
  import opened Text
  import opened SkillLevels

  /** The callbacks the dialog fires, in order. */
  datatype Call = OnAdd(skillName: string, category: string, level: int) | OnClose

  const DefaultLevel := 3

  /** The guard of `handleAdd`: the trimmed name is non-empty and a category is chosen. */
  predicate AddGuard(skillName: string, category: string)
  {
    Trim(skillName) != "" && category != ""
  }

  /** The Add button's `disabled` condition. */
  predicate AddButtonDisabled(skillName: string, category: string)
  {
    Trim(skillName) == "" || category == ""
  }

  /** The calls `handleAdd` makes: add with the trimmed name, then the reset's close; nothing when guarded off. */
  function AddCalls(skillName: string, category: string, level: int): (calls: seq<Call>)
    ensures calls == [] <==> !AddGuard(skillName, category)
    ensures calls != [] ==> calls == [OnAdd(Trim(skillName), category, level), OnClose]
  {
    if AddGuard(skillName, category) then [OnAdd(Trim(skillName), category, level), OnClose] else []
  }

  /** The button is disabled exactly when clicking Add would fire nothing. */
  lemma DisabledIffNoCalls(skillName: string, category: string, level: int)
    ensures AddButtonDisabled(skillName, category) <==> AddCalls(skillName, category, level) == []
  {
  }

  /** The added name is non-empty and has no whitespace at either end. */
  lemma AddedNameIsTrimmed(skillName: string, category: string, level: int)
    requires AddCalls(skillName, category, level) != []
    ensures var name := AddCalls(skillName, category, level)[0].skillName;
      name != "" && !IsWhitespace(name[0]) && !IsWhitespace(name[|name| - 1]) && Trim(name) == name
  {
    TrimIdempotent(skillName);
  }

  /** A name made only of whitespace is never added, whatever the category. */
  lemma BlankNameNeverAdded(skillName: string, category: string, level: int)
    requires IsBlank(skillName)
    ensures AddCalls(skillName, category, level) == []
  {
  }

  /** The form state of the dialog. */
  class AddSkillForm {
    var skillName: string
    var category: string
    var skillLevel: int

    /** The level is always a slider position. */
    ghost predicate Valid()
      reads this
    {
      MinLevel <= skillLevel <= MaxLevel
    }

    /** The form starts empty at the default level. */
    predicate AtDefaults()
      reads this
    {
      skillName == "" && category == "" && skillLevel == DefaultLevel
    }

    constructor()
      ensures Valid() && AtDefaults()
    {
      skillName := "";
      category := "";
      skillLevel := DefaultLevel;
    }

    method SetSkillName(name: string)
      modifies this
      ensures skillName == name && category == old(category) && skillLevel == old(skillLevel)
    {
      skillName := name;
    }

    method SetCategory(c: string)
      modifies this
      ensures category == c && skillName == old(skillName) && skillLevel == old(skillLevel)
    {
      category := c;
    }

    /** The slider reports a value between its bounds. */
    method SetSkillLevel(level: int)
      requires MinLevel <= level <= MaxLevel
      modifies this
      ensures Valid()
      ensures skillLevel == level && skillName == old(skillName) && category == old(category)
    {
      skillLevel := level;
    }

    /** `handleCancel`: reset to the defaults, then close. */
    method HandleCancel() returns (calls: seq<Call>)
      modifies this
      ensures Valid() && AtDefaults()
      ensures calls == [OnClose]
    {
      skillName := "";
      category := "";
      skillLevel := DefaultLevel;
      calls := [OnClose];
    }

    /** `handleAdd`: when the guard holds, report the new skill and cancel; otherwise change nothing. */
    method HandleAdd() returns (calls: seq<Call>)
      requires Valid()
      modifies this
      ensures Valid()
      ensures calls == AddCalls(old(skillName), old(category), old(skillLevel))
      ensures AddGuard(old(skillName), old(category)) ==> AtDefaults()
      ensures !AddGuard(old(skillName), old(category)) ==>
                skillName == old(skillName) && category == old(category) && skillLevel == old(skillLevel)
    {
      if AddGuard(skillName, category) {
        var added := OnAdd(Trim(skillName), category, skillLevel);
        var closing := HandleCancel();
        calls := [added] + closing;
      } else {
        calls := [];
      }
    }

    /** The dialog's open-change handler: a close behaves as Cancel, an open does nothing. */
    method OnOpenChange(open: bool) returns (calls: seq<Call>)
      modifies this
      ensures !open ==> Valid() && AtDefaults() && calls == [OnClose]
      ensures open ==> calls == [] && skillName == old(skillName) && category == old(category) && skillLevel == old(skillLevel)
    {
      if !open {
        calls := HandleCancel();
      } else {
        calls := [];
      }
    }
  }
}
