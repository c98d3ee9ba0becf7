/**
 * The My Skills page: the employee's skill list with level updates and
 * additions, the grouping of skills by category, and the avatar initials.
 */
module MySkills {
  import opened Results
  import opened Text

  /** One skill row; `lastUpdated` is the date text the page shows. */
  datatype Skill = Skill(id: int, name: string, level: int, category: string, lastUpdated: string)

  /** The skills the page starts with. */
  const InitialSkills: seq<Skill> := [
    Skill(1, "React Development", 5, "Technical", "Nov 15, 2024"),
    Skill(2, "TypeScript", 4, "Technical", "Nov 10, 2024"),
    Skill(3, "Node.js", 4, "Technical", "Nov 12, 2024"),
    Skill(4, "UI/UX Design", 3, "Design", "Oct 28, 2024"),
    Skill(5, "Figma", 3, "Design", "Oct 25, 2024"),
    Skill(6, "Team Leadership", 4, "Management", "Nov 5, 2024"),
    Skill(7, "Project Management", 3, "Management", "Oct 20, 2024"),
    Skill(8, "Agile Methodology", 4, "Management", "Nov 8, 2024"),
    Skill(9, "Technical Writing", 4, "Communication", "Nov 1, 2024"),
    Skill(10, "Presentation Skills", 3, "Communication", "Oct 18, 2024"),
    Skill(11, "Data Analysis", 3, "Analytics", "Nov 3, 2024")
  ]

  /** The name whose initials the profile card shows. */
  const UserName: string := "Sarah Johnson"

  /** The ids are exactly 1, 2, ..., n in list order. */
  ghost predicate SequentialIds(skills: seq<Skill>)
  {
    forall k :: 0 <= k < |skills| ==> skills[k].id == k + 1
  }

  lemma InitialSkillsSequential()
    ensures |InitialSkills| == 11 && SequentialIds(InitialSkills)
  {
  }

  // ---------------------------------------------------------------- saving a level

  /** `handleSaveSkill`'s map: every skill with that id gets the new level and date. */
  function WithLevel(skills: seq<Skill>, id: int, level: int, date: string): (r: seq<Skill>)
    ensures |r| == |skills|
    ensures forall k :: 0 <= k < |skills| && skills[k].id == id ==>
              r[k] == skills[k].(level := level, lastUpdated := date)
    ensures forall k :: 0 <= k < |skills| && skills[k].id != id ==> r[k] == skills[k]
  {
    if skills == [] then []
    else
      var s := skills[0];
      [if s.id == id then s.(level := level, lastUpdated := date) else s] + WithLevel(skills[1..], id, level, date)
  }

  /** An id no skill carries changes nothing. */
  lemma WithLevelUnknownId(skills: seq<Skill>, id: int, level: int, date: string)
    requires forall k :: 0 <= k < |skills| ==> skills[k].id != id
    ensures WithLevel(skills, id, level, date) == skills
  {
  }

  /** With ids 1..n, saving id `id` changes exactly the skill at position id - 1, and only its level and date. */
  lemma WithLevelTouchesOne(skills: seq<Skill>, id: int, level: int, date: string)
    requires SequentialIds(skills) && 1 <= id <= |skills|
    ensures var r := WithLevel(skills, id, level, date);
            && r[id - 1] == skills[id - 1].(level := level, lastUpdated := date)
            && (forall k :: 0 <= k < |skills| && k != id - 1 ==> r[k] == skills[k])
            && SequentialIds(r)
  {
  }

  // ---------------------------------------------------------------- adding a skill

  /** The skill `handleAddSkill` appends: its id is one more than the current count. */
  function NewSkill(skills: seq<Skill>, name: string, category: string, level: int, date: string): Skill
  {
    Skill(|skills| + 1, name, level, category, date)
  }

  /** With ids 1..n, the added id is new and the ids stay 1..n+1. */
  lemma NewSkillIdFresh(skills: seq<Skill>, name: string, category: string, level: int, date: string)
    requires SequentialIds(skills)
    ensures forall k :: 0 <= k < |skills| ==> skills[k].id != NewSkill(skills, name, category, level, date).id
    ensures SequentialIds(skills + [NewSkill(skills, name, category, level, date)])
  {
  }

  // ---------------------------------------------------------------- grouping by category

  /** The skills of one category, in list order. */
  function InCategory(skills: seq<Skill>, c: string): (r: seq<Skill>)
    ensures |r| <= |skills|
  {
    if skills == [] then []
    else
      var last := skills[|skills| - 1];
      InCategory(skills[..|skills| - 1], c) + (if last.category == c then [last] else [])
  }

  /** A group holds exactly the skills of its category. */
  lemma {:induction false} InCategoryMembers(skills: seq<Skill>, c: string)
    ensures forall x :: x in InCategory(skills, c) <==> x in skills && x.category == c
  {
    if skills != [] {
      var front := skills[..|skills| - 1];
      assert skills == front + [skills[|skills| - 1]];
      InCategoryMembers(front, c);
    }
  }

  /** A category no skill has gets an empty group. */
  lemma {:induction false} InCategoryAbsent(skills: seq<Skill>, c: string)
    requires forall k :: 0 <= k < |skills| ==> skills[k].category != c
    ensures InCategory(skills, c) == []
  {
    if skills != [] {
      InCategoryAbsent(skills[..|skills| - 1], c);
    }
  }

  /** Grouping keeps order: each part of a concatenation is grouped on its own. */
  lemma {:induction false} InCategoryAppend(a: seq<Skill>, b: seq<Skill>, c: string)
    ensures InCategory(a + b, c) == InCategory(a, c) + InCategory(b, c)
  {
    if b == [] {
      assert a + b == a;
    } else {
      var front := b[..|b| - 1];
      assert (a + b)[..|a + b| - 1] == a + front;
      assert (a + b)[|a + b| - 1] == b[|b| - 1];
      InCategoryAppend(a, front, c);
    }
  }

  /** The categories in order of first appearance: the key order of the grouped record. */
  function CategoryOrder(skills: seq<Skill>): seq<string>
  {
    if skills == [] then []
    else
      var o := CategoryOrder(skills[..|skills| - 1]);
      var c := skills[|skills| - 1].category;
      if c in o then o else o + [c]
  }

  /** Some skill of the list has category `c`. */
  ghost predicate HasCategory(skills: seq<Skill>, c: string)
  {
    exists k :: 0 <= k < |skills| && skills[k].category == c
  }

  /** No string occurs twice. */
  ghost predicate Distinct(cats: seq<string>)
  {
    forall i, j :: 0 <= i < j < |cats| ==> cats[i] != cats[j]
  }

  /** The key order names every category that occurs, and nothing else. */
  lemma {:induction false} CategoryOrderMembers(skills: seq<Skill>)
    ensures forall k :: 0 <= k < |skills| ==> skills[k].category in CategoryOrder(skills)
    ensures forall c :: c in CategoryOrder(skills) ==> HasCategory(skills, c)
  {
    if skills != [] {
      var front := skills[..|skills| - 1];
      CategoryOrderMembers(front);
      assert forall k :: 0 <= k < |front| ==> front[k] == skills[k];
      forall c | c in CategoryOrder(skills) ensures HasCategory(skills, c) {
        if c in CategoryOrder(front) {
          var k :| 0 <= k < |front| && front[k].category == c;
          assert skills[k].category == c;
        } else {
          assert skills[|skills| - 1].category == c;
        }
      }
    }
  }

  /** No category appears twice in the key order. */
  lemma {:induction false} CategoryOrderDistinct(skills: seq<Skill>)
    ensures Distinct(CategoryOrder(skills))
  {
    if skills != [] {
      var o := CategoryOrder(skills[..|skills| - 1]);
      var c := skills[|skills| - 1].category;
      CategoryOrderDistinct(skills[..|skills| - 1]);
      if c !in o {
        var r := o + [c];
        assert CategoryOrder(skills) == r;
        forall i, j | 0 <= i < j < |r| ensures r[i] != r[j] {
          assert r[i] == o[i] && o[i] in o;
          if j < |o| {
            assert r[j] == o[j];
          }
        }
      }
    }
  }

  /** The total size of the groups of `cats`. */
  function GroupSizes(skills: seq<Skill>, cats: seq<string>): nat
  {
    if cats == [] then 0 else |InCategory(skills, cats[0])| + GroupSizes(skills, cats[1..])
  }

  /** How often `c` occurs in `cats`. */
  function CountOf(cats: seq<string>, c: string): nat
  {
    if cats == [] then 0 else (if cats[0] == c then 1 else 0) + CountOf(cats[1..], c)
  }

  lemma {:induction false} CountOfDistinct(cats: seq<string>, c: string)
    requires Distinct(cats)
    ensures CountOf(cats, c) == if c in cats then 1 else 0
  {
    if cats != [] {
      CountOfDistinct(cats[1..], c);
      if cats[0] == c {
        assert c !in cats[1..] by {
          forall j | 0 <= j < |cats[1..]| ensures cats[1..][j] != c {
            assert cats[1..][j] == cats[j + 1];
          }
        }
      }
    }
  }

  lemma {:induction false} GroupSizesSnoc(front: seq<Skill>, x: Skill, cats: seq<string>)
    ensures GroupSizes(front + [x], cats) == GroupSizes(front, cats) + CountOf(cats, x.category)
  {
    if cats != [] {
      GroupSizesSnoc(front, x, cats[1..]);
      var s := front + [x];
      assert s[..|s| - 1] == front;
    }
  }

  /** Over a list of distinct categories that covers every skill, the group sizes add up to the list length. */
  lemma {:induction false} GroupSizesCover(skills: seq<Skill>, cats: seq<string>)
    requires Distinct(cats)
    requires forall k :: 0 <= k < |skills| ==> skills[k].category in cats
    ensures GroupSizes(skills, cats) == |skills|
  {
    if skills == [] {
      GroupSizesEmpty(cats);
    } else {
      var front := skills[..|skills| - 1];
      var x := skills[|skills| - 1];
      assert skills == front + [x];
      GroupSizesCover(front, cats);
      GroupSizesSnoc(front, x, cats);
      CountOfDistinct(cats, x.category);
    }
  }

  lemma {:induction false} GroupSizesEmpty(cats: seq<string>)
    ensures GroupSizes([], cats) == 0
  {
    if cats != [] {
      GroupSizesEmpty(cats[1..]);
    }
  }

  /** The groups of the grouped record, taken together, hold every skill exactly once. */
  lemma GroupSizesSum(skills: seq<Skill>)
    ensures GroupSizes(skills, CategoryOrder(skills)) == |skills|
  {
    CategoryOrderMembers(skills);
    CategoryOrderDistinct(skills);
    GroupSizesCover(skills, CategoryOrder(skills));
  }

  /** A skill lies in the group of its own category and in no other. */
  lemma SkillInOwnGroup(skills: seq<Skill>, k: nat, c: string)
    requires k < |skills|
    ensures skills[k] in InCategory(skills, c) <==> c == skills[k].category
  {
    InCategoryMembers(skills, c);
  }

  /** `order` and `groups` are the grouped record of `prefix`: its key order and its lists. */
  ghost predicate GroupedAs(prefix: seq<Skill>, order: seq<string>, groups: map<string, seq<Skill>>)
  {
    && order == CategoryOrder(prefix)
    && (forall c :: c in groups <==> c in order)
    && (forall c :: c in groups ==> groups[c] == InCategory(prefix, c))
  }

  /** Filing one more skill: its category's list, created empty if missing, grows by the skill. */
  lemma FileSkill(prefix: seq<Skill>, x: Skill, order: seq<string>, groups: map<string, seq<Skill>>)
    requires GroupedAs(prefix, order, groups)
    ensures GroupedAs(prefix + [x],
                      if x.category in groups then order else order + [x.category],
                      groups[x.category := (if x.category in groups then groups[x.category] else []) + [x]])
  {
    var s := prefix + [x];
    assert s[..|s| - 1] == prefix;
    if x.category !in groups {
      CategoryOrderMembers(prefix);
      InCategoryAbsent(prefix, x.category);
    }
  }

  /**
   * `groupedSkills`: the reduce that files every skill under its category,
   * creating a category's list the first time it is met.
   * `order` is the record's key order.
   */
  method GroupByCategory(skills: seq<Skill>) returns (order: seq<string>, groups: map<string, seq<Skill>>)
    ensures order == CategoryOrder(skills)
    ensures forall c :: c in groups <==> c in order
    ensures forall c :: c in groups ==> groups[c] == InCategory(skills, c)
  {
    order := [];
    groups := map[];
    var i := 0;
    while i < |skills|
      invariant 0 <= i <= |skills|
      invariant GroupedAs(skills[..i], order, groups)
    {
      var skill := skills[i];
      FileSkill(skills[..i], skill, order, groups);
      assert skills[..i + 1] == skills[..i] + [skill];
      if skill.category !in groups {
        groups := groups[skill.category := []];
        order := order + [skill.category];
      }
      groups := groups[skill.category := groups[skill.category] + [skill]];
      i := i + 1;
    }
    assert skills[..|skills|] == skills;
  }

  // ---------------------------------------------------------------- initials

  /** `.map((n) => n[0]).join("")`: the first character of every non-empty part. */
  function FirstChars(parts: seq<string>): string
  {
    if parts == [] then ""
    else (if parts[0] == "" then "" else [parts[0][0]]) + FirstChars(parts[1..])
  }

  /** `name.split(" ").map((n) => n[0]).join("").toUpperCase()`. */
  function Initials(name: string): string
  {
    ToUpper(FirstChars(Split(name, ' ')))
  }

  /** The characters of `s` that start a word: non-spaces at the start or right after a space. */
  function WordStarts(s: string, afterSpace: bool): (r: string)
    ensures |r| <= |s|
    ensures forall k :: 0 <= k < |r| ==> r[k] != ' '
  {
    if s == [] then ""
    else (if afterSpace && s[0] != ' ' then [s[0]] else "") + WordStarts(s[1..], s[0] == ' ')
  }

  /** The first characters of the split parts are exactly the word starts. */
  lemma {:induction false} FirstCharsOfSplit(s: string)
    ensures FirstChars(Split(s, ' ')) == WordStarts(s, true)
    ensures FirstChars(Split(s, ' ')[1..]) == WordStarts(s, false)
  {
    if s != [] {
      FirstCharsOfSplit(s[1..]);
      var rest := Split(s[1..], ' ');
      if s[0] == ' ' {
        assert Split(s, ' ') == [""] + rest;
        assert Split(s, ' ')[1..] == rest;
      } else {
        var parts := Split(s, ' ');
        assert parts == [[s[0]] + rest[0]] + rest[1..];
        assert parts[1..] == rest[1..];
      }
    }
  }

  /** The initials are the upper-cased first letters of the words; empty parts from repeated spaces add nothing. */
  lemma InitialsAreWordStarts(name: string)
    ensures Initials(name) == ToUpper(WordStarts(name, true))
  {
    FirstCharsOfSplit(name);
  }

  /** Word starts of a concatenation: the second part continues after the first one's last character. */
  lemma {:induction false} WordStartsAppend(a: string, b: string, afterSpace: bool)
    ensures WordStarts(a + b, afterSpace)
            == WordStarts(a, afterSpace) + WordStarts(b, if a == [] then afterSpace else a[|a| - 1] == ' ')
  {
    if a == [] {
      assert a + b == b;
    } else {
      assert (a + b)[0] == a[0] && (a + b)[1..] == a[1..] + b;
      WordStartsAppend(a[1..], b, a[0] == ' ');
    }
  }

  /** A word without spaces starts only at its first character. */
  lemma {:induction false} WordStartsOfWord(w: string, afterSpace: bool)
    requires ' ' !in w
    ensures WordStarts(w, afterSpace) == if afterSpace && w != [] then [w[0]] else ""
  {
    if w != [] {
      WordStartsOfWord(w[1..], false);
    }
  }

  /** The words of the user's name start with 'S' and 'J'. */
  lemma UserWordStarts()
    ensures WordStarts(UserName, true) == "SJ"
  {
    assert UserName == "Sarah" + " " + "Johnson";
    WordStartsAppend("Sarah" + " ", "Johnson", true);
    WordStartsAppend("Sarah", " ", true);
    WordStartsOfWord("Sarah", true);
    WordStartsOfWord("Johnson", true);
  }

  /** The profile card shows "SJ". */
  lemma UserInitials()
    ensures Initials(UserName) == "SJ"
  {
    InitialsAreWordStarts(UserName);
    UserWordStarts();
    assert ToUpper("SJ") == "SJ";
  }

  // ---------------------------------------------------------------- the page state

  /** The page's skill list and the two dialogs it opens. */
  class SkillsPage {
    var skills: seq<Skill>
    var selectedSkill: Option<Skill>
    var isEditModalOpen: bool
    var isAddModalOpen: bool

    /** The page only appends and updates in place, so the ids stay 1..n. */
    ghost predicate Valid()
      reads this
    {
      SequentialIds(skills)
    }

    constructor ()
      ensures Valid()
      ensures skills == InitialSkills && selectedSkill == None && !isEditModalOpen && !isAddModalOpen
    {
      skills := InitialSkills;
      selectedSkill := None;
      isEditModalOpen := false;
      isAddModalOpen := false;
      InitialSkillsSequential();
    }

    /** The "Total Skills" figure: with ids 1..n it is also the largest id. */
    function TotalSkills(): (n: nat)
      reads this
      ensures n == |skills|
      ensures SequentialIds(skills) ==> forall k :: 0 <= k < |skills| ==> skills[k].id <= n
      ensures SequentialIds(skills) && n > 0 ==> skills[n - 1].id == n
    {
      |skills|
    }

    /** `handleEditClick`. */
    method EditClick(skill: Skill)
      modifies this
      ensures selectedSkill == Some(skill) && isEditModalOpen
      ensures skills == old(skills) && isAddModalOpen == old(isAddModalOpen)
    {
      selectedSkill := Some(skill);
      isEditModalOpen := true;
    }

    /** The edit dialog's `onClose`. */
    method CloseEdit()
      modifies this
      ensures !isEditModalOpen
      ensures skills == old(skills) && selectedSkill == old(selectedSkill) && isAddModalOpen == old(isAddModalOpen)
    {
      isEditModalOpen := false;
    }

    /** The "Add New Skill" button, and the add dialog's `onClose`. */
    method SetAddModalOpen(open: bool)
      modifies this
      ensures isAddModalOpen == open
      ensures skills == old(skills) && selectedSkill == old(selectedSkill) && isEditModalOpen == old(isEditModalOpen)
    {
      isAddModalOpen := open;
    }

    /** `handleSaveSkill`; `today` stands for the formatted current date. */
    method SaveSkill(skillId: int, newLevel: int, today: string)
      requires Valid()
      modifies this
      ensures Valid()
      ensures skills == WithLevel(old(skills), skillId, newLevel, today)
      ensures selectedSkill == old(selectedSkill)
      ensures isEditModalOpen == old(isEditModalOpen) && isAddModalOpen == old(isAddModalOpen)
    {
      skills := WithLevel(skills, skillId, newLevel, today);
    }

    /** `handleAddSkill`; `today` stands for the formatted current date. */
    method AddSkill(skillName: string, category: string, level: int, today: string)
      requires Valid()
      modifies this
      ensures Valid()
      ensures skills == old(skills) + [Skill(|old(skills)| + 1, skillName, level, category, today)]
      ensures forall k :: 0 <= k < |old(skills)| ==> skills[k].id != |old(skills)| + 1
      ensures selectedSkill == old(selectedSkill)
      ensures isEditModalOpen == old(isEditModalOpen) && isAddModalOpen == old(isAddModalOpen)
    {
      NewSkillIdFresh(skills, skillName, category, level, today);
      skills := skills + [NewSkill(skills, skillName, category, level, today)];
    }
  }
}
