# Skills dashboard front end: client-side state logic in Dafny

The skills dashboard is a React prototype with no backend. Employees browse
and edit skill profiles, managers review CV uploads and skill change requests,
and a chat box talks to a simulated assistant. This project models the small
pieces of state logic held by its components, and proves what each one
promises. There is one Dafny module per component, plus three shared modules:

- `Results` (`results.dfy`): an `Option` type.
- `Text` (`text.dfy`): the JavaScript string operations the components use:
  - `trim`, over the ECMAScript whitespace and line-terminator characters;
  - `split` on a single character, which always yields at least one piece;
  - `join`;
  - `endsWith`;
  - an ASCII `toUpperCase`.
- `SkillLevels` (`skill_levels.dfy`): the 1..5 proficiency scale and its
  description table, which both skill dialogs declare identically.

**Component modules**

- **CV upload queue** (`CVProcessing`, `cv_processing.dfy`).
  - `UploadQueue` is a class holding the upload list and the drag highlight.
  - `HandleFiles` walks a batch of files with the source's early exits. It is
    proved to append exactly `NewEntries(batch)`: one fresh record per file
    that passes the type check and then the size check. `NewEntriesOne` and
    `NewEntriesAppend` characterise that function file by file, in order.
  - `UploadSimulation` is the interval's local progress counter. `Tick` is one
    firing of the interval; `RunUntilCleared` fires it until it is cleared.
  - The list updates and the unit choice are pure functions:
    - `Ticked` rewrites every record of the file's name;
    - `RemoveNamed` is `removeFile`;
    - `SizeUnitFor` is `formatFileSize`'s unit.
- **My skills page** (`MySkills`, `my_skills.dfy`).
  - `SkillsPage` holds the skill list and the two dialog flags.
  - Its class invariant is that the ids are exactly 1..n, and saving and adding
    preserve it.
  - `GroupByCategory` rebuilds the `groupedSkills` reduce as a loop over a map.
    It is proved equal to the independent definitions `CategoryOrder` and
    `InCategory`.
  - `Initials` is the split/first-character/join/upper-case expression.
    `InitialsAreWordStarts` ties it to a direct definition.
- **Shell routing** (`Routing`, `routing.dfy`): pathname to screen, page key to
  path, and page to component. The round trip shows each page.
- **Sidebar** (`Sidebar`, `sidebar.dfy`): the navigation table, the active rule
  and the click guard. The Try Now button and the search box are modelled as
  controls.
- **Skill search** (`SkillSearch`, `skill_search.dfy`): pagination clamped to
  1..3, Clear All, and the details modal.
- **Add Skill dialog** (`AddSkillModal`, `add_skill_modal.dfy`), **Edit Skill
  dialog** (`EditSkillModal`, `edit_skill_modal.dfy`) and **chat input bar**
  (`ChatInputBar`, `chat_input_bar.dfy`).
- **Star rating** (`StarRating`, `star_rating.dfy`).
- **Employee profiles** (`EmployeeProfiles`, `employee_profiles.dfy`).

**How the page-level effects are modelled**

- Each callback a handler fires becomes part of a method's result. Examples are
  `onAdd`, `onClose`, `onSave`, `onSendMessage` and `onRatingChange`. The result
  is a sequence of `Call` values, or an `Option`, so the callbacks' order and
  number are visible.
- Each timer becomes a discrete step:
  - `UploadSimulation.Tick` is the body of the interval;
  - `EditSkillForm.CompleteSave` is the body of the save timeout.
- Dates are taken as a parameter: `today` stands for the formatted current date.

**Routing and the unused filter**

- `Sidebar.NavigationShowsPage` joins the sidebar to the shell. It states what
  happens when a control's page is handed to the shell's page change.
- No component in `src/` renders the sidebar, though. The page wrappers under
  `src/pages/` are not part of this model.
- The skill search page stores a filter-logic choice (AND or OR), but no
  handler ever reads it:
  - The Apply Filters button has no handler.
  - The results are always the eight sample rows.
- An AND/OR filter evaluator exists only in the older copy of the app under
  `New folder (2)/`, which the current app does not import. It is not
  modelled.

## Model

| member | source | states |
|---|---|---|
| Text.Trim | src/components/AddSkillModal.tsx:37-38 | `trim` yields "" exactly for an all-whitespace string; otherwise its ends are non-whitespace, it is a slice of the input, and everything cut away is whitespace |
| Text.TrimIdempotent | src/components/ChatInputBar.tsx:14-15 | trimming a trimmed string changes nothing |
| Text.Split | src/components/MySkillsContent.tsx:85 | `split(" ")` gives one more piece than there are separators, and no piece contains the separator |
| Text.JoinSplit | src/components/MySkillsContent.tsx:85 | joining the pieces of a split with the same separator gives back the string |
| Text.ToUpper | src/components/MySkillsContent.tsx:87 | upper-casing keeps the length and maps each character to its upper case |
| CVProcessing.Validate | src/components/CVProcessingContent.tsx:62-93 | a file is accepted iff its type is one of the four listed types and its size is at most 10·1024·1024; the type check comes first, so a wrong type is rejected as such whatever the size; an accepted file becomes a record uploading at progress 0 |
| CVProcessing.NewEntries | src/components/CVProcessingContent.tsx:70-97 | a batch adds at most one record per file, each uploading at 0, and every record is the accepted verdict of some file of the batch |
| CVProcessing.NewEntriesOne | src/components/CVProcessingContent.tsx:70-97 | a file that passes the type and size checks adds exactly its fresh record; a rejected file adds nothing |
| CVProcessing.NewEntriesAppend | src/components/CVProcessingContent.tsx:70-97 | the records of a batch are those of its first part followed by those of the rest, so batch order is kept |
| CVProcessing.Names | src/components/CVProcessingContent.tsx:96 | the names of the records, position by position |
| CVProcessing.UploadQueue.constructor | src/components/CVProcessingContent.tsx:33-34 | the list starts empty and not highlighted |
| CVProcessing.UploadQueue.DragOver | src/components/CVProcessingContent.tsx:37-40 | the highlight is set and the list is unchanged |
| CVProcessing.UploadQueue.DragLeave | src/components/CVProcessingContent.tsx:42-45 | the highlight is cleared and the list is unchanged |
| CVProcessing.UploadQueue.Drop | src/components/CVProcessingContent.tsx:47-52 | the highlight is cleared and the dropped files are handled |
| CVProcessing.UploadQueue.FileInput | src/components/CVProcessingContent.tsx:54-59 | an absent file list changes nothing; otherwise the chosen files are handled |
| CVProcessing.UploadQueue.HandleFiles | src/components/CVProcessingContent.tsx:61-102 | the new list is the old list followed by exactly the accepted files' records, in batch order, so rejected files and earlier records are untouched; one simulation is started per accepted file, in order; every record stays well formed |
| CVProcessing.StatusFor | src/components/CVProcessingContent.tsx:114 | uploading iff progress < 50, processing iff 50 ≤ progress < 100, completed iff progress ≥ 100 |
| CVProcessing.StatusMonotone | src/components/CVProcessingContent.tsx:114 | more progress never gives an earlier status: statuses only move forward |
| CVProcessing.Ticked | src/components/CVProcessingContent.tsx:108-117 | a tick keeps the length, leaves records of other names unchanged, and gives every record of the name, duplicates included, the new progress and its status |
| CVProcessing.TickedKeepsIdentity | src/components/CVProcessingContent.tsx:108-117 | a tick keeps every record's name, size and type |
| CVProcessing.TickOverwrites | src/components/CVProcessingContent.tsx:108-117 | a second tick for the same name wholly overrides the first |
| CVProcessing.SameNameTickRegresses | src/components/CVProcessingContent.tsx:108-117 | with two uploads of one name, a tick of the later simulation moves a row the earlier one had advanced back to lower progress and an earlier status |
| CVProcessing.UploadSimulation.constructor | src/components/CVProcessingContent.tsx:104-106 | a simulation starts at progress 0, running |
| CVProcessing.UploadSimulation.Tick | src/components/CVProcessingContent.tsx:105-122 | progress grows by 10, the list becomes `Ticked` at the new progress, and the interval is cleared exactly when progress reaches 100; progress never exceeds 100 |
| CVProcessing.UploadSimulation.RunUntilCleared | src/components/CVProcessingContent.tsx:104-127 | firing until cleared ends at progress 100 with every record of the name completed, and nothing else changed |
| CVProcessing.CountNamed | src/components/CVProcessingContent.tsx:130 | the number of records of a name is at most the list length |
| CVProcessing.RemoveNamed | src/components/CVProcessingContent.tsx:129-131 | removal drops exactly the records of the name (membership iff), and the length falls by their number |
| CVProcessing.RemoveNamedAppend | src/components/CVProcessingContent.tsx:130 | removal distributes over concatenation, so the kept records keep their order |
| CVProcessing.RemoveNamedAbsent | src/components/CVProcessingContent.tsx:130 | removing a name that no record has leaves the list exactly as it was |
| CVProcessing.RemoveNamedIdempotent | src/components/CVProcessingContent.tsx:129-131 | removing twice is removing once |
| CVProcessing.UploadQueue.RemoveFile | src/components/CVProcessingContent.tsx:129-131 | the list becomes `RemoveNamed` of the old list |
| CVProcessing.SizeUnitFor | src/components/CVProcessingContent.tsx:133-137 | "B" iff bytes < 1024, "KB" iff 1024 ≤ bytes < 1048576, "MB" otherwise |
| CVProcessing.AcceptedSizeUnit | src/components/CVProcessingContent.tsx:133-137 | an accepted file shown in MB is at most 10 MB |
| MySkills.InitialSkillsSequential | src/components/MySkillsContent.tsx:42-54 | the initial list has 11 skills with ids 1..11 in order |
| MySkills.WithLevel | src/components/MySkillsContent.tsx:105-110 | saving keeps the length, gives each skill with the id the new level and date, and leaves every other skill unchanged |
| MySkills.WithLevelUnknownId | src/components/MySkillsContent.tsx:105-110 | an id no skill has changes nothing |
| MySkills.WithLevelTouchesOne | src/components/MySkillsContent.tsx:105-110 | with ids 1..n, exactly the skill at position id−1 changes, only in level and date, and the ids stay 1..n |
| MySkills.NewSkillIdFresh | src/components/MySkillsContent.tsx:116-125 | with ids 1..n the added skill's id length+1 is new, and the ids become 1..n+1 |
| MySkills.SkillsPage.constructor | src/components/MySkillsContent.tsx:70-74 | the page starts with the initial skills, nothing selected, both dialogs closed |
| MySkills.SkillsPage.TotalSkills | src/components/MySkillsContent.tsx:197 | the displayed total is the number of skills, and with ids 1..n it is also the largest id |
| MySkills.SkillsPage.EditClick | src/components/MySkillsContent.tsx:99-103 | the skill is selected and the edit dialog opens; the list is unchanged |
| MySkills.SkillsPage.CloseEdit | src/components/MySkillsContent.tsx:329 | the edit dialog closes; the selection is kept |
| MySkills.SkillsPage.SetAddModalOpen | src/components/MySkillsContent.tsx:160-164 | the add dialog flag takes the given value |
| MySkills.SkillsPage.SaveSkill | src/components/MySkillsContent.tsx:105-114 | the list becomes `WithLevel` of the old list, and the ids stay 1..n |
| MySkills.SkillsPage.AddSkill | src/components/MySkillsContent.tsx:116-129 | one skill with id old length+1 and the given name, category and level is appended; earlier skills are unchanged and the new id is fresh |
| MySkills.InCategory | src/components/MySkillsContent.tsx:91-97 | a category's group is no longer than the list |
| MySkills.InCategoryMembers | src/components/MySkillsContent.tsx:91-97 | a group holds exactly the skills of its category |
| MySkills.InCategoryAbsent | src/components/MySkillsContent.tsx:91-97 | a category no skill has gets an empty group |
| MySkills.InCategoryAppend | src/components/MySkillsContent.tsx:91-97 | grouping distributes over concatenation: within a group, list order is kept |
| MySkills.CategoryOrderMembers | src/components/MySkillsContent.tsx:92-94 | the record's keys are exactly the categories that occur |
| MySkills.CategoryOrderDistinct | src/components/MySkillsContent.tsx:92-94 | no key occurs twice |
| MySkills.CountOfDistinct | src/components/MySkillsContent.tsx:92-94 | in a list without repeats a key occurs once or not at all |
| MySkills.GroupSizesSnoc | src/components/MySkillsContent.tsx:95 | filing one more skill grows the total group size by the number of its category's keys |
| MySkills.GroupSizesCover | src/components/MySkillsContent.tsx:91-97 | over distinct keys covering all categories, the group sizes add up to the number of skills |
| MySkills.GroupSizesEmpty | src/components/MySkillsContent.tsx:91 | an empty list has empty groups |
| MySkills.GroupSizesSum | src/components/MySkillsContent.tsx:91-97 | the groups of the record together hold every skill exactly once: their sizes sum to the list length |
| MySkills.SkillInOwnGroup | src/components/MySkillsContent.tsx:95 | a skill lies in the group of its own category and in no other |
| MySkills.FileSkill | src/components/MySkillsContent.tsx:92-95 | filing one skill, creating its list when missing, turns the record of a prefix into the record of the longer prefix |
| MySkills.GroupByCategory | src/components/MySkillsContent.tsx:91-97 | the reduce's key order is the order of first appearance, its keys are the categories present, and each key's list is that category's skills in list order |
| MySkills.WordStarts | src/components/MySkillsContent.tsx:84-88 | the word starts are no more than the characters and never a space |
| MySkills.FirstCharsOfSplit | src/components/MySkillsContent.tsx:85-86 | the first characters of the split parts are exactly the characters that begin a word |
| MySkills.InitialsAreWordStarts | src/components/MySkillsContent.tsx:84-88 | the initials are the upper-cased first letters of the words; empty parts from repeated spaces add nothing |
| MySkills.WordStartsAppend | src/components/MySkillsContent.tsx:84-88 | word starts of a concatenation continue from the first part's last character |
| MySkills.WordStartsOfWord | src/components/MySkillsContent.tsx:84-88 | a word without spaces has only its first character as a start |
| MySkills.UserWordStarts | src/components/MySkillsContent.tsx:78 | the words of "Sarah Johnson" start with 'S' and 'J' |
| MySkills.UserInitials | src/components/MySkillsContent.tsx:77-88 | the profile card's initials for "Sarah Johnson" are "SJ" |
| Routing.KeyInjective | src/App.tsx:12 | distinct pages have distinct keys |
| Routing.CurrentPage | src/App.tsx:45-50 | each of the four named paths gives its page, and every other path gives the chat, in both directions |
| Routing.Resolve | src/App.tsx:26-50 | "/login" and "/register" show their own screens instead of the dashboard; every other path shows the dashboard on `CurrentPage` |
| Routing.PathFor | src/App.tsx:52-58 | "ai-chat" goes to "/", any other key p to "/" + p |
| Routing.RoundTrip | src/App.tsx:45-58 | resolving the path a page change produces shows the page, for each of the five pages |
| Routing.PathForInjective | src/App.tsx:52-58 | distinct pages go to distinct paths |
| Routing.LoginKeyLeavesDashboard | src/App.tsx:26-58 | the page change accepts any string: the key "login" leaves the dashboard for the login screen |
| Routing.RenderContent | src/App.tsx:60-73 | each page gets its own component, the chat being the default |
| Routing.RenderContentInjective | src/App.tsx:60-73 | no component serves two pages |
| Sidebar.RenderedItems | src/components/Sidebar.tsx:137-138 | the menu shows the table without its first entry, so no rendered entry leads to skill search |
| Sidebar.ClickItem | src/components/Sidebar.tsx:143 | a disabled entry never calls the page change; an enabled one calls it with exactly its page, if it has one |
| Sidebar.Activate | src/components/Sidebar.tsx:91-143 | Try Now goes to the chat, the search box to skill search, each rendered entry does what `ClickItem` does for it, and a position past the entries does nothing |
| Sidebar.NavPagesDistinct | src/components/Sidebar.tsx:9-36 | the table's pages are pairwise distinct |
| Sidebar.AtMostOneActive | src/components/Sidebar.tsx:138 | whatever the current page, at most one rendered entry is active |
| Sidebar.AnalyticsNeverNavigates | src/components/Sidebar.tsx:143 | the Analytics entry, the only one without a page, is disabled and never navigates |
| Sidebar.ControlFor | src/components/Sidebar.tsx:91-143 | every page has a sidebar control that navigates to it |
| Sidebar.NavigationShowsPage | src/components/Sidebar.tsx:138-143 | handing a control's page to the shell shows that page, and a clicked entry is then the active one |
| SkillSearch.SampleDataWellFormed | src/components/SkillSearchContent.tsx:40-49 | the eight rows have ids 1..8 and ratings 1..5 |
| SkillSearch.PrevPage | src/components/SkillSearchContent.tsx:308 | Previous goes one page back but never below page 1 |
| SkillSearch.NextPage | src/components/SkillSearchContent.tsx:352 | Next goes one page on but never past page 3 |
| SkillSearch.UpdatersStayInRange | src/components/SkillSearchContent.tsx:308-352 | from a page in 1..3 both updaters stay in 1..3 |
| SkillSearch.PrevNextRoundTrip | src/components/SkillSearchContent.tsx:308-352 | Next(Previous(p)) = p for 2 ≤ p ≤ 3, and Previous(Next(p)) = p for 1 ≤ p ≤ 2 |
| SkillSearch.EndsAreFixed | src/components/SkillSearchContent.tsx:308-352 | Previous on page 1 stays at 1; Next on page 3 stays at 3 |
| SkillSearch.ExactlyOneLinkActive | src/components/SkillSearchContent.tsx:312-335 | on any page in range, exactly one of the links 1..3 is highlighted |
| SkillSearch.SearchPage.constructor | src/components/SkillSearchContent.tsx:61-67 | empty query and selects, operator "and", page 1, nothing selected, modal closed |
| SkillSearch.SearchPage.SetSearchQuery | src/components/SkillSearchContent.tsx:110-111 | only the query changes |
| SkillSearch.SearchPage.SetSkillLevel | src/components/SkillSearchContent.tsx:137 | only the level select changes |
| SkillSearch.SearchPage.SetDepartment | src/components/SkillSearchContent.tsx:158 | only the department select changes |
| SkillSearch.SearchPage.SetOperator | src/components/SkillSearchContent.tsx:179 | only the operator changes |
| SkillSearch.SearchPage.Previous | src/components/SkillSearchContent.tsx:304-310 | the page becomes `PrevPage` of the old page and stays in 1..3; nothing else changes |
| SkillSearch.SearchPage.Next | src/components/SkillSearchContent.tsx:348-354 | the page becomes `NextPage` of the old page and stays in 1..3; nothing else changes |
| SkillSearch.SearchPage.GoTo | src/components/SkillSearchContent.tsx:312-335 | a link sets the page to its number, which is then the highlighted link |
| SkillSearch.SearchPage.ClearAll | src/components/SkillSearchContent.tsx:211-215 | level and department become "" and the operator "and"; the query and the page are untouched |
| SkillSearch.SearchPage.ViewDetails | src/components/SkillSearchContent.tsx:69-72 | the row is selected and the modal opens |
| SkillSearch.SearchPage.CloseModal | src/components/SkillSearchContent.tsx:74-77 | the modal closes and the selection is cleared |
| SkillLevels.EveryLevelDescribed | src/components/EditSkillModal.tsx:51-58 | every slider level 1..5 has a non-empty description |
| SkillLevels.DescriptionsMatchSlider | src/components/AddSkillModal.tsx:50-57 | the table ends at the slider's maximum and describes distinct levels differently |
| AddSkillModal.AddCalls | src/components/AddSkillModal.tsx:36-48 | Add fires nothing iff the guard fails; otherwise it fires `onAdd` once with the trimmed name, the category and the level, then `onClose` |
| AddSkillModal.DisabledIffNoCalls | src/components/AddSkillModal.tsx:157 | the Add button is disabled exactly when Add would fire nothing |
| AddSkillModal.AddedNameIsTrimmed | src/components/AddSkillModal.tsx:37-38 | the added name is non-empty, has no whitespace at either end, and is its own trim |
| AddSkillModal.BlankNameNeverAdded | src/components/AddSkillModal.tsx:37 | a whitespace-only name is never added, whatever the category |
| AddSkillModal.AddSkillForm.constructor | src/components/AddSkillModal.tsx:32-34 | the form starts with name "", category "" and level 3 |
| AddSkillModal.AddSkillForm.SetSkillName | src/components/AddSkillModal.tsx:84 | only the name changes |
| AddSkillModal.AddSkillForm.SetCategory | src/components/AddSkillModal.tsx:92 | only the category changes |
| AddSkillModal.AddSkillForm.SetSkillLevel | src/components/AddSkillModal.tsx:122-127 | only the level changes, to a slider value in 1..5 |
| AddSkillModal.AddSkillForm.HandleCancel | src/components/AddSkillModal.tsx:43-48 | the form returns to "", "", 3 and `onClose` fires once |
| AddSkillModal.AddSkillForm.HandleAdd | src/components/AddSkillModal.tsx:36-41 | the calls are `AddCalls` of the old state; after a successful add the form is back at its defaults; when guarded off nothing changes |
| AddSkillModal.AddSkillForm.OnOpenChange | src/components/AddSkillModal.tsx:62-66 | closing the dialog behaves as Cancel; an open request does nothing |
| EditSkillModal.EditSkillForm.constructor | src/components/EditSkillModal.tsx:31-32 | the edited level starts at the skill's level, not loading |
| EditSkillModal.EditSkillForm.SetSkillLevel | src/components/EditSkillModal.tsx:96-102 | only the edited level changes, even while loading |
| EditSkillModal.EditSkillForm.ClickSave | src/components/EditSkillModal.tsx:34-38 | Save locks the dialog and captures the skill's id and the current level; while locked a second Save changes nothing |
| EditSkillModal.EditSkillForm.CompleteSave | src/components/EditSkillModal.tsx:38-43 | the scheduled step fires `onSave` once with the captured id and level, then `onClose`, and unlocks |
| EditSkillModal.EditSkillForm.ClickCancel | src/components/EditSkillModal.tsx:46-49 | Cancel restores the skill's own level and fires only `onClose`; while locked it does nothing |
| EditSkillModal.EditSkillForm.OnOpenChange | src/components/EditSkillModal.tsx:61 | the dialog's close path fires `onClose` only: it neither restores the level nor respects the lock |
| EditSkillModal.EditSkillForm.ReceiveSkillAsWritten | src/components/EditSkillModal.tsx:30-31 | a new skill prop replaces the skill but keeps the edited level |
| EditSkillModal.EditSkillForm.ReceiveSkill | src/components/EditSkillModal.tsx:31-49 | a new skill prop reseeds the edited level from that skill |
| EditSkillModal.StaleLevelSavedAsWritten | src/components/MySkillsContent.tsx:326-333 | as written, saving UI/UX Design (level 3) after the dialog showed React Development (level 5) reports level 5 |
| EditSkillModal.OwnLevelSaved | src/components/EditSkillModal.tsx:31-43 | with the level reseeded, the same steps report level 3 |
| EditSkillModal.SaveUntouched | src/components/EditSkillModal.tsx:31-43 | with the level reseeded, saving any newly passed skill untouched reports that skill's own id and level |
| ChatInputBar.SentText | src/components/ChatInputBar.tsx:13-16 | nothing is sent iff the message is blank; otherwise the trimmed text is sent, non-empty and with non-whitespace ends |
| ChatInputBar.DisabledIffNothingSent | src/components/ChatInputBar.tsx:64 | the Send button is disabled exactly when sending would send nothing |
| ChatInputBar.SentTextIsStable | src/components/ChatInputBar.tsx:14-15 | the sent text is already trimmed: sending it again would send it unchanged |
| ChatInputBar.ChatInput.constructor | src/components/ChatInputBar.tsx:11 | the box starts empty |
| ChatInputBar.ChatInput.SetMessage | src/components/ChatInputBar.tsx:52 | the box takes the typed text |
| ChatInputBar.ChatInput.HandleSend | src/components/ChatInputBar.tsx:13-18 | the text sent is `SentText` of the box; after a send the box is empty, otherwise unchanged |
| ChatInputBar.ChatInput.HandleKeyDown | src/components/ChatInputBar.tsx:20-25 | Enter without Shift suppresses the default and attempts a send; every other key, Shift+Enter included, sends nothing and changes nothing |
| StarRating.CurrentRating | src/components/StarRating.tsx:20 | a non-zero hover is shown, otherwise the rating |
| StarRating.FilledAmong | src/components/StarRating.tsx:24-37 | at most n of the stars 1..n are filled |
| StarRating.FilledAmongIsMin | src/components/StarRating.tsx:24-37 | among stars 1..n exactly min(n, r) are filled for a rating r ≥ 0 |
| StarRating.FilledCountIsRating | src/components/StarRating.tsx:24-37 | for a rating r in 0..5 exactly r of the five stars are filled |
| StarRating.FilledIsPrefix | src/components/StarRating.tsx:36-37 | the filled stars form a prefix |
| StarRating.Widget.constructor | src/components/StarRating.tsx:10-12 | the rating starts at the initial rating, 0 when none is passed, and hover at 0 |
| StarRating.Widget.Displayed | src/components/StarRating.tsx:20 | with no hover the rating is shown; a readonly widget always shows its rating |
| StarRating.Widget.Click | src/components/StarRating.tsx:14-18 | a readonly widget changes nothing and reports nothing; otherwise the rating becomes the value, reported to `onRatingChange` when one is passed |
| StarRating.Widget.MouseEnter | src/components/StarRating.tsx:29 | unless readonly, the hovered star is previewed |
| StarRating.Widget.MouseLeave | src/components/StarRating.tsx:30 | unless readonly, the preview ends and the rating shows again |
| EmployeeProfiles.SampleEmployeesConsistent | src/components/EmployeeProfilesContent.tsx:35-157 | six employees with ids 1..6, each one's skill count equal to the length of its skill list |
| EmployeeProfiles.SampleSkillIdsSequential | src/components/EmployeeProfilesContent.tsx:35-157 | across all employees the skill ids run 1..43 in order |
| EmployeeProfiles.SampleSkillIdsUnique | src/components/EmployeeProfilesContent.tsx:35-157 | no two skills share an id |
| EmployeeProfiles.FindRequest | src/components/EmployeeProfilesContent.tsx:244-254 | the lookup finds nothing iff no request has the id, and what it finds is a request with that id |
| EmployeeProfiles.FindRequestIsFirst | src/components/EmployeeProfilesContent.tsx:244-254 | the lookup returns the first request with the id |
| EmployeeProfiles.SampleRequestLookup | src/components/EmployeeProfilesContent.tsx:160-194 | ids 1..3 find the matching sample request; every other id finds none |
| EmployeeProfiles.ImportVerdict | src/components/EmployeeProfilesContent.tsx:220-232 | there is no verdict iff no file was chosen; the first file is accepted iff its type is "text/csv" or its name ends in ".csv" |
| EmployeeProfiles.VerdictIgnoresLaterFiles | src/components/EmployeeProfilesContent.tsx:221 | only the first chosen file is judged |
| EmployeeProfiles.ProfilesPage.constructor | src/components/EmployeeProfilesContent.tsx:197-203 | nothing selected, every modal closed, empty feedback, page 1 |
| EmployeeProfiles.ProfilesPage.ViewDetails | src/components/EmployeeProfilesContent.tsx:206-209 | the employee is selected and the details modal opens |
| EmployeeProfiles.ProfilesPage.CloseModal | src/components/EmployeeProfilesContent.tsx:211-214 | the details modal closes and the employee is cleared |
| EmployeeProfiles.ProfilesPage.SetRequestsModalOpen | src/components/EmployeeProfilesContent.tsx:397 | only the requests modal flag changes |
| EmployeeProfiles.ProfilesPage.Respond | src/components/EmployeeProfilesContent.tsx:244-254 | Accept and Decline alike open the feedback modal on the request with the id, or on none; the choice is not recorded; the requests modal and the text stay |
| EmployeeProfiles.ProfilesPage.SetFeedback | src/components/EmployeeProfilesContent.tsx:498 | only the feedback text changes |
| EmployeeProfiles.ProfilesPage.SubmitFeedback | src/components/EmployeeProfilesContent.tsx:256-267 | submission happens iff the trimmed text is non-empty; then the modal closes and text and request are cleared; otherwise nothing changes |
| EmployeeProfiles.ProfilesPage.CancelFeedback | src/components/EmployeeProfilesContent.tsx:507-511 | Cancel closes the modal and clears text and request, whatever the text |
| EmployeeProfiles.ProfilesPage.SetFeedbackModalOpen | src/components/EmployeeProfilesContent.tsx:477 | closing through the dialog only clears the flag: text and request survive |
| EmployeeProfiles.ProfilesPage.HandleFileChange | src/components/EmployeeProfilesContent.tsx:220-236 | the outcome is `ImportVerdict` of the chosen files, and the input is emptied whenever a first file existed |

## Left out

- Toasts (`sonner`), `console.log` and every colour or style choice are left out. Only which outcome a handler reaches is modelled: an import accepted or rejected, feedback submitted or not.
- Timers are not modelled as time. The CV upload interval and the edit dialog's save timeout are separate steps (`Tick`, `CompleteSave`), and nothing is said about timings or interleaving with other events.
- CVProcessing.SizeUnitFor: only the unit of `formatFileSize` is modelled; the `toFixed(1)` digits are floating-point text.
- CVProcessing: the `Error` status is in the record type but nothing assigns it.
- CVProcessing: the buttons that click the hidden file input, and the drag events' `preventDefault`, are DOM behaviour.
- MySkills.SkillsPage.SaveSkill, MySkills.SkillsPage.AddSkill: the date is a parameter, because `toLocaleDateString` depends on the clock and the locale.
- MySkills.GroupByCategory works on a Dafny map with an explicit key order. It does not model the JavaScript object-key quirks of the reduce, such as integer-like category names being enumerated first. The grouped record is never rendered.
- MySkills: the feedback dialog of the pending-approval table (`handleViewFeedback` and its close) only shows a selected text. It is not one of the page's list operations and is not modelled.
- Text.ToUpper: upper-casing is modelled for ASCII letters only; other characters are kept as they are.
- EmployeeProfiles: `handleImportClick` (a DOM click on a hidden input) and `handleUpdateSkills` (a toast only) are left out. The employee list's pagination links have no handlers, so the page stays 1.
- SkillSearch: the results table is the fixed sample data; the filter inputs are stored but never applied.
- The page wrappers under `src/pages/` are not part of this model, nor is `src/components/ui/dialog.tsx` beyond which handler each dialog passes.
- The star display inside the two skill dialogs is a readonly star rating created with the level at the dialog's opening. Its own rating does not follow later slider moves. Only the widget itself is modelled, not its use inside the dialogs.
- The initials code repeated in the employee card and the two details dialogs is the same expression as `MySkills.Initials`, and is modelled once.
- The API client, services and hooks under `src/api` and `src/hooks`, and the presentational components, hold no state logic of their own.

## Findings

| source | as written | input that shows it | evidently intended | confidence | as-written member | corrected member |
|---|---|---|---|---|---|---|
| src/components/EditSkillModal.tsx:31 | the edited level is seeded from `skill.level` once, at mount. The page mounts the dialog once and then only swaps the `skill` prop (src/components/MySkillsContent.tsx:326-333), so the level left by the previous skill carries over | the dialog has shown React Development (level 5); the user opens UI/UX Design (level 3) and saves without touching the slider; `onSave(4, 5)` is fired | the dialog opens on the chosen skill's own level, as Cancel's "reset to original" does | medium, not executed | EditSkillModal.StaleLevelSavedAsWritten | EditSkillModal.SaveUntouched |
