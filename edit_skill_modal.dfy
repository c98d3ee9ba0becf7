/**
 * The Edit Skill dialog: a level slider seeded from the skill being edited,
 * a two-phase save (the click locks the dialog and schedules the save; the
 * scheduled step reports the level, unlocks and closes), and a cancel that
 * restores the skill's own level.
 *
 * The component stays mounted while the page swaps the skill it is given,
 * so its level state outlives the skill it was seeded from.
 * `ReceiveSkillAsWritten` models that; `ReceiveSkill` reseeds the level.
 */
module EditSkillModal {
  import opened MySkills
  import opened SkillLevels

  /** The callbacks the dialog fires, in order. */
  datatype Call = OnSave(skillId: int, newLevel: int) | OnClose

  class EditSkillForm {
    /** The skill prop currently passed in by the page. */
    var skill: Skill
    var skillLevel: int
    var loading: bool
    /** What the scheduled save captured when Save was clicked: the skill's id and the level. */
    var pendingId: int
    var pendingLevel: int

    /** The edited level starts at the skill's own level, not loading. */
    constructor(skill: Skill)
      ensures this.skill == skill && skillLevel == skill.level && !loading
    {
      this.skill := skill;
      skillLevel := skill.level;
      loading := false;
      pendingId := skill.id;
      pendingLevel := skill.level;
    }

    /** Both footer buttons are disabled while a save is in flight. */
    predicate ButtonsDisabled()
      reads this
    {
      loading
    }

    /** The slider reports a value between its bounds; it stays usable while loading. */
    method SetSkillLevel(level: int)
      requires MinLevel <= level <= MaxLevel
      modifies this
      ensures skillLevel == level
      ensures skill == old(skill) && loading == old(loading)
      ensures pendingId == old(pendingId) && pendingLevel == old(pendingLevel)
    {
      skillLevel := level;
    }

    /** Save: lock the dialog and schedule the save of the current level; ignored while locked. */
    method ClickSave()
      modifies this
      ensures loading
      ensures old(loading) ==> pendingId == old(pendingId) && pendingLevel == old(pendingLevel)
      ensures !old(loading) ==> pendingId == old(skill).id && pendingLevel == old(skillLevel)
      ensures skill == old(skill) && skillLevel == old(skillLevel)
    {
      if loading {
        return;
      }
      loading := true;
      pendingId := skill.id;
      pendingLevel := skillLevel;
    }

    /** The scheduled step: report the captured id and level once, unlock, close. */
    method CompleteSave() returns (calls: seq<Call>)
      requires loading
      modifies this
      ensures !loading
      ensures calls == [OnSave(old(pendingId), old(pendingLevel)), OnClose]
      ensures skill == old(skill) && skillLevel == old(skillLevel)
    {
      calls := [OnSave(pendingId, pendingLevel), OnClose];
      loading := false;
    }

    /** Cancel: restore the skill's own level and close, without saving; ignored while locked. */
    method ClickCancel() returns (calls: seq<Call>)
      modifies this
      ensures old(loading) ==> calls == [] && skillLevel == old(skillLevel)
      ensures !old(loading) ==> calls == [OnClose] && skillLevel == skill.level
      ensures skill == old(skill) && loading == old(loading)
      ensures pendingId == old(pendingId) && pendingLevel == old(pendingLevel)
    {
      if loading {
        return [];
      }
      skillLevel := skill.level;
      calls := [OnClose];
    }

    /** The dialog's open-change handler is `onClose` itself: it closes without resetting, even while locked. */
    method OnOpenChange(open: bool) returns (calls: seq<Call>)
      ensures calls == [OnClose]
    {
      calls := [OnClose];
    }

    /** The page passes another skill: as written, only the prop changes and the edited level is kept. */
    method ReceiveSkillAsWritten(s: Skill)
      modifies this
      ensures skill == s && skillLevel == old(skillLevel) && loading == old(loading)
      ensures pendingId == old(pendingId) && pendingLevel == old(pendingLevel)
    {
      skill := s;
    }

    /** The page passes another skill: the edited level is reseeded from it, as on mount. */
    method ReceiveSkill(s: Skill)
      modifies this
      ensures skill == s && skillLevel == s.level && loading == old(loading)
      ensures pendingId == old(pendingId) && pendingLevel == old(pendingLevel)
    {
      skill := s;
      skillLevel := s.level;
    }
  }

  /**
   * As written: the dialog first shows React Development (level 5); the user
   * then opens UI/UX Design (level 3) and saves without touching the slider.
   * The save reports level 5 for UI/UX Design.
   */
  method StaleLevelSavedAsWritten() returns (calls: seq<Call>)
    ensures InitialSkills[3].id == 4 && InitialSkills[3].level == 3
    ensures calls == [OnSave(4, 5), OnClose]
  {
    var form := new EditSkillForm(InitialSkills[0]);
    form.ReceiveSkillAsWritten(InitialSkills[3]);
    form.ClickSave();
    calls := form.CompleteSave();
  }

  /** With the level reseeded, the same steps report UI/UX Design's own level. */
  method OwnLevelSaved() returns (calls: seq<Call>)
    ensures calls == [OnSave(4, 3), OnClose]
  {
    var form := new EditSkillForm(InitialSkills[0]);
    form.ReceiveSkill(InitialSkills[3]);
    form.ClickSave();
    calls := form.CompleteSave();
  }

  /** With the level reseeded, saving any newly passed skill untouched reports that skill's own level. */
  method SaveUntouched(first: Skill, next: Skill) returns (calls: seq<Call>)
    ensures calls == [OnSave(next.id, next.level), OnClose]
  {
    var form := new EditSkillForm(first);
    form.ReceiveSkill(next);
    form.ClickSave();
    calls := form.CompleteSave();
  }
}
