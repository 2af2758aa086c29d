# README generator core, modelled in Dafny

The application is a browser tool for writing a GitHub profile README.
The user edits one form record (`FormData`) on a set of panels. Every
change is a state transition: a field is set, a list entry edited, a
skill toggled, a section dragged to a new place, or an analysis result
merged in. From the record, a table of renderers produces one markdown
fragment per section key. The fragments are joined in the user's
section order with a horizontal-rule divider. Then the pinned
repositories placeholder is resolved, runs of dividers are collapsed
and the text is trimmed.

This project models that core as Dafny values and functions:

- `types.dfy` holds the form record and its entries. Every field has a
  `With…` writer.
- `constants.dfy` holds the catalogues: technologies, platforms,
  categories and header backgrounds. It also holds the default section
  orders, the initial tech stack and the initial form.
- `lists.dfy` and `tech_stacks.dfy` are the sequence helpers and the
  category-to-skills object. The object is an association list in
  insertion order, like a JavaScript object.
- `store.dfy` holds the form handlers of the application component.
  `patches.dfy` holds the spread updates of the nested configuration
  records, and `merge.dfy` the partial-record merge.
- `analysis.dfy` holds the skill-to-category map and the categorisation
  of analysed skills. It also holds the profile, resume and project
  analysis updates, and the aliasing behaviour of the source's placement
  (see Findings).
- `layout.dfy` holds the layout and picker logic of the form panel:
  drag-and-drop reordering (on a sequence and on an array in place),
  section toggling, tag lists, the project tech picker and the
  background groups.
- The renderers:
  - `render_text.dfy`, for the text sections;
  - `render_lists.dfy`, for the list sections;
  - `render_socials.dfy`, for the social links;
  - `render_projects.dfy`, for the projects;
  - `render_tech.dfy`, for the tech stack;
  - `render_stats.dfy`, for the statistics and analytics cards;
  - `render_banners.dfy`, for the two SVG banners.

  They rely on `js_string.dfy`, the JavaScript string operations used:
  `trim`, `join`, `split`, `indexOf`, `includes`, `toLowerCase`,
  `Math.round`, the tag-stripping and variant-stripping regular
  expressions, the span replace and the divider collapse. The span
  replace takes a string as its replacement, so it expands the `$`
  patterns of the GetSubstitution operation of ECMA-262:
  `$$`, `$&`, `` $` `` and `$'`. A GitHub user name typed into the form
  goes through that expansion when it becomes the Top Repos badge.
- `markdown.dfy` holds the renderer table and the final assembly.

The loops of the source are methods with loop invariants, proved equal
to the functions that specify them:

- the skill map;
- the initial tech stack;
- the tech-stack merge;
- the project and tech-stack section builders;
- the background grouping;
- the categoriser.

Drag-and-drop also has an in-place array version.

The base64 encoders (`btoa(unescape(encodeURIComponent(…)))`) and the
URL encoder are parameters of the banner and badge renderers.

Long fixed texts (URLs, SVG and HTML templates) are written as short
literal pieces joined with `+`. Joined, the pieces are the source's text
exactly. The verifier handles short pieces far more cheaply than one
long literal.

## Model

| member | source | states |
|---|---|---|
| Store.HandleFormChange | App.tsx:27-29 | the new record holds the given value in the named field |
| Store.FormChangeFrame | App.tsx:27-29 | every other field of the record is unchanged |
| Store.SetTextField | App.tsx:27-29 | a text field write sets that field and nothing else |
| Store.SetNumberField | App.tsx:27-29 | a number field write sets that field and nothing else |
| Store.SetTagsField | App.tsx:27-29 | a tag-list field write sets that field and nothing else |
| Store.SetFlagField | App.tsx:27-29 | a boolean field write sets that field and nothing else |
| Store.HandleMainHeaderChange | App.tsx:31-33 | only the main header changes, and it becomes the old header with the patch spread over it |
| Store.HandleProfileHeaderChange | App.tsx:35-37 | only the profile header changes, and it becomes the old header with the patch spread over it |
| Store.HandleListChange | App.tsx:40-47 | only the entry at the index changes, in the named field (Store.ListChangeSpec) |
| Store.ListChangeSpec | App.tsx:40-47 | only the named list changes; the entry at the index has the field set to the value and keeps its other fields; the other entries are unchanged; an index out of range leaves the list as it was |
| Store.HandleProjectTechChange | App.tsx:49-56 | only the projects change; the project at the index gets the new tech list and keeps its other fields; the other projects are unchanged |
| Store.HandleTopProjectToggle | App.tsx:58-65 | only the projects change; the flag of the project at the index is negated and nothing else changes |
| Store.TopProjectToggleTwice | App.tsx:58-65 | toggling the same project twice restores the record |
| Store.FlipMetric | App.tsx:70-73 | the named metric is negated and every other metric is kept |
| Store.HandleAdvancedMetricsToggle | App.tsx:67-76 | only the advanced metrics change: the named one is negated, the others are kept |
| Store.AdvancedMetricsToggleTwice | App.tsx:67-76 | toggling the same metric twice restores the record |
| Store.AddListItem | App.tsx:78-80 | the item is appended to the end of its list |
| Store.AddListItemFrame | App.tsx:78-80 | every field other than that list is unchanged |
| Store.RemoveListItem | App.tsx:82-84 | the entry at the index is removed and the rest keep their order (Store.RemoveListItemSpec) |
| Store.RemoveListItemSpec | App.tsx:82-84 | the entry at the index is removed, keeping the order of the rest; an index out of range changes nothing; no other field changes |
| Store.AddThenRemove | App.tsx:78-84 | removing the last entry right after adding it gives back the old list |
| Store.SetPlatform | App.tsx:86-99 | an unknown platform name leaves the links alone; a known one replaces the link at the index with the platform's name, icon and base URL; an index equal to the length appends |
| Store.HandleSocialPlatformChange | App.tsx:86-99 | only the social links change, as described for SetPlatform |
| Store.HandleTechStackToggle | App.tsx:101-112 | only the tech stack changes, by toggling the skill in the category |
| Store.AddCustomSkill | App.tsx:114-117 | a blank name or one already in the category changes nothing; otherwise the name is appended to that category alone |
| Store.HandleResetToDefaults | App.tsx:626-631 | after the confirmation the record is the initial form; without it, the record is unchanged |
| Store.ResetIsWellFormed | App.tsx:626-631 | the reset record has a duplicate-free section order and a tech stack with unique keys and duplicate-free skill lists |
| TechStacks.Keys | App.tsx:874 | the keys of a stack object in insertion order |
| TechStacks.KeyIndex | App.tsx:103 | the first position whose key is the category, or none exactly when the key is absent |
| TechStacks.Lookup | App.tsx:103 | a category's skills, or empty: the skills of the first entry with the key, empty when the key is absent |
| TechStacks.Put | App.tsx:109 | `{ ...ts, [category]: v }`: overwrites the first entry with the key in place, or appends a new key |
| TechStacks.PutLookup | App.tsx:109 | after a write, the key reads back the value and every other key reads as before; a new key is appended to the key order |
| TechStacks.LookupAppend | App.tsx:109 | appending a fresh key reads back its value and leaves the other keys |
| TechStacks.LookupOverwrite | App.tsx:109 | overwriting the first entry of a key reads back the value and leaves the other keys and the order |
| TechStacks.PutUniqueKeys | App.tsx:109 | a write keeps the keys distinct |
| TechStacks.LookupUnique | App.tsx:103 | with distinct keys, every entry is what its key reads |
| TechStacks.ToggleSkill | App.tsx:101-112 | the skill is present afterwards exactly when it was absent, the stack stays well formed, and toggling twice restores the members (TechStacks.ToggleSkillLookup, TechStacks.ToggleKeepsWellFormed, TechStacks.ToggleTwice) |
| TechStacks.ToggleSkillLookup | App.tsx:101-112 | the skill is in the category afterwards exactly when it was not before; other skills and categories are unaffected; an added skill goes to the end |
| TechStacks.LookupNoDups | App.tsx:104-106 | a well-formed stack reads a duplicate-free list for any key |
| TechStacks.PutWellFormed | App.tsx:109 | writing a duplicate-free list keeps the stack well formed |
| TechStacks.ToggleKeepsWellFormed | App.tsx:101-112 | toggling keeps the keys distinct and every list duplicate-free |
| TechStacks.ToggleTwice | App.tsx:101-112 | toggling twice restores the members of the category; a skill already present moves to the end |
| Lists.NoDupsConcat | App.tsx:134 | two duplicate-free disjoint lists concatenate to a duplicate-free list |
| Lists.UpdateAt | App.tsx:42-44 | `map((item, i) => i === index ? f(item) : item)`: same length, only the entry at the index changes, no change when out of range |
| Lists.RemoveAt | App.tsx:83 | `filter((_, i) => i !== index)`: the entries before and after the index, in order; no change when out of range |
| Lists.RemoveAtMultiset | App.tsx:83 | removal takes exactly one occurrence of the removed entry |
| Lists.Insert | components/FormPanel.tsx:92 | `splice(i, 0, x)`: x lands at i with the prefix and suffix kept |
| Lists.Move | components/FormPanel.tsx:91-92 | a permutation that puts the entry at the target and keeps the others in order (Lists.MoveProperties, Lists.MoveSame) |
| Lists.MoveProperties | components/FormPanel.tsx:91-92 | a move is a permutation that places the moved entry at the target and keeps the others in relative order |
| Lists.MoveSame | components/FormPanel.tsx:91-92 | moving an entry onto its own place changes nothing |
| Lists.RemoveAll | App.tsx:105 | `filter(s => s !== x)`: x is gone and every other element is present exactly when it was |
| Lists.RemoveAllKeeps | App.tsx:105 | the filtered list is a subsequence with every other element's count unchanged |
| Lists.SubsequenceSkip | App.tsx:105 | a subsequence stays one when an element is put in front |
| Lists.SubsequenceTail | App.tsx:105 | dropping the first element of a subsequence keeps it a subsequence |
| Lists.Toggle | App.tsx:104-106 | `includes ? filter : [...s, x]`: x is present afterwards exactly when it was absent; other elements are unaffected, and an added x goes to the end |
| Lists.ToggleNoDups | App.tsx:104-106 | toggling keeps a list duplicate-free |
| Lists.RemoveAllNoDups | App.tsx:105 | filtering keeps a list duplicate-free |
| Lists.ToggleTwice | App.tsx:104-106 | toggling twice restores the members; a present element moves to the end |
| Lists.Dedupe | App.tsx:134 | `[...new Set(s)]`: duplicate-free, with the same members |
| Lists.DedupeAfter | App.tsx:134 | the new elements of a list not yet seen, in first-occurrence order |
| Lists.NoDupsSnoc | App.tsx:134 | appending a fresh element keeps a list duplicate-free |
| Lists.DedupeOfDistinct | App.tsx:134 | a duplicate-free prefix survives deduplication unchanged, followed by the unseen rest |
| Lists.DedupeAfterPrefix | App.tsx:134 | deduplicating after a duplicate-free prefix keeps the prefix in order |
| Lists.DedupeIdempotentUnion | App.tsx:134 | merging a duplicate-free list with itself gives the list |
| Lists.DedupeAfterSeen | App.tsx:134 | nothing new is kept when every element has been seen |
| Patches.MainHeaderPatch.ApplyTo | App.tsx:123 | `{ ...header, ...patch }`: each present patch field wins, each absent one is kept |
| Patches.ProfileHeaderPatch.ApplyTo | App.tsx:124 | the same for the profile header |
| Patches.SocialIconStylePatch.ApplyTo | App.tsx:125 | the same for the social icon style |
| Patches.SectionStylePatch.ApplyTo | App.tsx:153-155 | the same for the section style record, merged by the generic object branch |
| Patches.AdvancedMetricsPatch.ApplyTo | App.tsx:126 | the same for the advanced metrics |
| Patches.MainHeaderMergeLaws | App.tsx:123 | an empty patch is the identity; applying a patch is idempotent; a full patch replaces; two patches in a row equal their combination |
| Patches.ProfileHeaderMergeLaws | App.tsx:124 | an empty patch is the identity and applying a patch is idempotent |
| Patches.SocialIconStyleMergeLaws | App.tsx:125 | an empty patch is the identity and applying a patch is idempotent |
| Patches.SectionStyleMergeLaws | App.tsx:153-155 | an empty patch is the identity and applying a patch is idempotent |
| Merging.AppendStrings | App.tsx:147-149 | a non-empty incoming string list is appended with its empty strings filtered out; an absent or empty one keeps the field |
| Merging.AppendItems | App.tsx:147-149 | an incoming list of records is appended; an absent one keeps the field |
| Merging.Truthy | App.tsx:149 | `filter(item => item)` on strings: a subsequence holding exactly the non-empty elements |
| Merging.MergeTechStacks | App.tsx:128-138 | the loop over the incoming categories computes the specification of the merge |
| Merging.MergeTechStackLookup | App.tsx:128-138 | an incoming category reads the deduplicated union of the old and new skills; any other category reads its old skills |
| Merging.KeysTail | App.tsx:130 | the keys of a stack are its first key followed by the keys of the rest |
| Merging.LookupTail | App.tsx:130 | a lookup skips a first entry with another key |
| Merging.MergeTechStackKeysOrder | App.tsx:129 | the old keys stay first and in their order |
| Merging.MergeTechStackKeys | App.tsx:128-138 | the merged keys are the union of the old and incoming keys |
| Merging.MergeTechStackWellFormed | App.tsx:128-138 | merging keeps a well-formed stack well formed |
| Merging.MergeTechStackExistingFirst | App.tsx:134 | the old skills of a category stay first, followed by the incoming skills they lacked |
| Merging.Merge | App.tsx:119-160 | fields absent from the partial record keep their values, and an empty partial record changes nothing (Merging.MergeKeepsAbsentKeys, Merging.MergeNothing) |
| Merging.MergeKeepsAbsentKeys | App.tsx:119-160 | every field absent from the partial record keeps its old value |
| Merging.MergeNothing | App.tsx:119-160 | merging an empty partial record changes nothing |
| Analysis.SetAll | App.tsx:17-19 | after the inner loop, every listed skill maps to the category and every other key is kept |
| Analysis.BuildSkillMap | App.tsx:14-22 | the nested loop computes the skill-to-category map |
| Analysis.SkillMap | App.tsx:14-22 | its keys are the catalogue's skill names, each mapped to the last category listing it (Analysis.SkillMapDomain, Analysis.SkillMapLastWins, Analysis.SkillMapValues) |
| Analysis.SkillMapDomain | App.tsx:14-22 | a name is a key exactly when some category lists it |
| Analysis.SkillMapLastWins | App.tsx:18 | a name listed under several categories maps to the last one |
| Analysis.SkillMapValues | App.tsx:14-22 | every value is a category name of the catalogue |
| Analysis.SharedSkillsMapToMobile | App.tsx:14-22 | with the shipped catalogue, Swift and Kotlin map to Mobile App Development, not Programming Languages |
| Analysis.MobileListsLast | constants.ts:10-114 | Mobile App Development is the last category that lists Swift and Kotlin |
| Analysis.PlaceSkills | App.tsx:194-199 | the loop over the analysed skills computes the categorisation specification |
| Analysis.Categorize | App.tsx:192-199 | the defaults' keys are kept in order and a skill ends up exactly in the default or mapped categories (Analysis.CategorizeMembers, Analysis.CategorizeKeys, Analysis.CategorizeStep) |
| Analysis.CategorizeKeys | App.tsx:192-199 | the key order of the defaults is kept, and no key is added when the map only targets existing keys |
| Analysis.CategorizeMembers | App.tsx:195-197 | a skill is in a category afterwards exactly when it was there by default or was analysed and maps to that category |
| Analysis.Place | App.tsx:195-197 | one skill joins its mapped category and no other membership changes (Analysis.PlaceMembers) |
| Analysis.PlaceMembers | App.tsx:195-197 | placing one skill adds it to its mapped, non-empty category and changes no other membership |
| Analysis.CategorizeStep | App.tsx:194 | categorising one more skill is one more placement on the result so far |
| Analysis.CategorizeDefaultsFirst | App.tsx:196-197 | the default skills of a category stay first |
| Analysis.CategorizeWellFormed | App.tsx:196 | categorisation keeps every list duplicate-free |
| Analysis.CatalogMapIntoDefaults | App.tsx:195-196 | every category the catalogue map names is a key of the initial stack |
| Analysis.ApplyProfileAnalysis | App.tsx:191-206 | `bio` is the analysed one when non-empty, else the old one; the tech stack is the defaults categorised afresh; no other field changes |
| Analysis.ProfileAnalysisStack | App.tsx:191-206 | the result has the catalogue's category order, each category holds its defaults plus the analysed skills mapped to it, and it is well formed; an analysis with no skills gives back exactly the default stack, whatever earlier analyses did |
| Analysis.ApplyResumeAnalysis | App.tsx:467-485 | name and bio fall back to the old ones when empty; work and education are replaced when given; the stack is categorised afresh; no other field changes |
| Analysis.ResumeLikeProfile | App.tsx:467-485 | a resume analysis with no name, work or education is the profile analysis |
| Analysis.SkillArray.constructor | App.tsx:192 | a new array holds the given items |
| Analysis.Contents | App.tsx:192 | the value of an object of heap arrays, key by key |
| Analysis.PlaceSkillsShared | App.tsx:192-199 | as written, the pushes go into the defaults' own arrays: the defaults become the categorised stack |
| Analysis.SharedArraysWitness | App.tsx:192-199 | after one analysis, the defaults and a later analysis with no skills both still hold the first analysis's skill |
| Analysis.NewProject | App.tsx:414-424 | a named, categorised project; the URL is the repository link when it mentions github.com and the live link otherwise; the tech is the parsed list or empty; not featured, no badges |
| Analysis.ApplyProjectAnalysis | App.tsx:414-426 | only the projects change: the new project is appended |
| Analysis.ProjectFromUrlChecks | App.tsx:163-166 | a URL accepted by the profile check is accepted by the project check; a project built from a non-GitHub URL has no repository link |
| Layout.IndexOf | components/FormPanel.tsx:88-89 | `indexOf`: −1 exactly when absent, otherwise the first position of the element |
| Layout.MoveAt | components/FormPanel.tsx:91-92 | the element at each position after a move, case by case |
| Layout.HandleDragEnd | components/FormPanel.tsx:85-98 | the new order is the drag result of the dragged and hovered keys |
| Layout.MoveInPlace | components/FormPanel.tsx:91-92 | the two splices on the array leave it equal to the move of its old contents |
| Layout.ShiftDown | components/FormPanel.tsx:91 | the cells between the positions shift one place down and the rest stay |
| Layout.ShiftUp | components/FormPanel.tsx:92 | the cells between the positions shift one place up and the rest stay |
| Layout.DragResult | components/FormPanel.tsx:86-94 | the dragged key moves to the hovered key's index; otherwise the order is unchanged (Layout.DragEndMoves, Layout.DragEndNoOp) |
| Layout.DragEndMoves | components/FormPanel.tsx:86-94 | dragging onto another key is a permutation that puts the dragged key at the target's old index and keeps the others in order |
| Layout.DragEndNoOp | components/FormPanel.tsx:86 | with nothing dragged, nothing hovered, or a key dropped on itself, the order is unchanged |
| Layout.HandleToggleSection | components/FormPanel.tsx:100-105 | the key is shown afterwards exactly when it was hidden; other keys are unaffected; a new key goes last |
| Layout.ToggleSectionTwice | components/FormPanel.tsx:100-105 | toggling twice restores the shown keys, and toggling keeps the order duplicate-free |
| Layout.HandleAddTag | components/FormPanel.tsx:510-515 | an empty or present tag changes nothing; otherwise it is appended, keeping the list duplicate-free |
| Layout.HandleRemoveTag | components/FormPanel.tsx:517-519 | the tag is gone and every other tag's count and order are kept |
| Layout.AddThenRemoveTag | components/FormPanel.tsx:510-519 | removing a tag just added gives back the list |
| Layout.RemoveAllSnoc | components/FormPanel.tsx:518 | filtering out a fresh last element gives back the rest |
| Layout.AvailableTech | components/FormPanel.tsx:728 | the offered skills are exactly the catalogue skills not yet chosen whose lower-case name contains the lower-case search, in catalogue order |
| Layout.EmptySearchOffersAll | components/FormPanel.tsx:728 | an empty search offers every skill not yet chosen |
| Layout.AddTech | components/FormPanel.tsx:730-733 | the chosen skill becomes the last entry after the old list, the members are the old ones plus it, and a fresh skill keeps the list duplicate-free |
| Layout.AddThenRemoveTech | components/FormPanel.tsx:730-736 | removing a skill that was just added to a list without it gives the list back |
| Layout.RemoveTech | components/FormPanel.tsx:734-736 | the skill is gone and the others are kept in order |
| Layout.PickerKeepsDistinct | components/FormPanel.tsx:728-736 | picking an offered skill, or removing one, keeps the tech list duplicate-free |
| Layout.AddToGroup | components/FormPanel.tsx:265 | pushing onto a group created on demand: only group g grows, by x at its end |
| Layout.BackgroundGroups | components/FormPanel.tsx:264-267 | the reduce computes the grouping specification |
| Layout.GroupOf | components/FormPanel.tsx:264-267 | the members of a group are exactly the backgrounds with that group |
| Layout.GroupsMembers | components/FormPanel.tsx:264-267 | the grouping lists each group's backgrounds in table order |
| Layout.EachKeyInItsGroup | components/FormPanel.tsx:264-267 | every background appears in its own group and, with distinct keys, in no other |
| Layout.BackgroundKeys | constants.ts:147-161 | the keys of the background table in order |
| Layout.HeaderBackgroundKeysDistinct | constants.ts:147-161 | the background keys are distinct |
| Layout.HeaderBackgroundKeyListDistinct | constants.ts:147-161 | the background key list is duplicate-free |
| Constants.CategoryNames | constants.ts:10-114 | the category names of a catalogue in order |
| Constants.SkillNames | constants.ts:10-114 | the skill names of a category in order |
| Constants.AllSkillNames | App.tsx:171 | every skill name of every category, and nothing else |
| Constants.CategoryIndex | constants.ts:10-114 | the first position of a category name, none exactly when absent |
| Constants.CatalogSkills | App.tsx:879 | a catalogue category's skills, or empty when the category is absent |
| Constants.FindSocialPlatform | App.tsx:87 | `find` on the platform table: some exactly when a platform has the name, and then that platform |
| Constants.FindBy | App.tsx:87 | `find` by a key on any list: some exactly when an entry has the key, and then an entry of the list with that key |
| Constants.FindProblemSolvingPlatform | App.tsx:963 | the same for the problem-solving platforms |
| Constants.FindBackground | App.tsx:724 | `HEADER_BACKGROUNDS[key]`: some exactly when the key is in the table, and then the first entry with it |
| Constants.BuildInitialTechStack | constants.ts:192-200 | the reduce and the four assignments compute the initial stack |
| Constants.CatalogCategoryAt | constants.ts:192-195 | the empty stack has one empty entry per catalogue category, in order |
| Constants.SelectProgramming | constants.ts:197 | the first assignment overwrites entry 0 |
| Constants.SelectFrontend | constants.ts:198 | the second assignment overwrites entry 1 |
| Constants.SelectBackend | constants.ts:199 | the third assignment overwrites entry 2 |
| Constants.SelectDevOps | constants.ts:200 | the fourth assignment overwrites entry 7 |
| Constants.DefaultsSelected | constants.ts:197-200 | the four assignments give the initial stack |
| Constants.PutFirst | constants.ts:197-200 | a write to an existing key overwrites its first entry |
| Constants.CatalogCategoriesDistinct | constants.ts:10-114 | the catalogue has 15 distinct categories |
| Constants.InitialTechStack | constants.ts:192-200 | the catalogue's categories in order, with only the four defaults filled (Constants.InitialTechStackShape) |
| Constants.InitialTechStackShape | constants.ts:192-200 | the initial stack has the catalogue's keys in order, each once; only the four named categories are non-empty, with the listed skills |
| Constants.InitialKeys | constants.ts:192-195 | the initial stack's keys are the catalogue's categories |
| Constants.InitialSelections | constants.ts:197-200 | exactly the four named categories start non-empty |
| Constants.DefaultSelectionsInCatalog | constants.ts:197-200 | every default skill is listed by the catalogue under its category, and the default lists are duplicate-free |
| Constants.SelectionsInCatalog | constants.ts:197-200 | the same, position by position |
| Constants.CatalogSkillsUnique | constants.ts:10-114 | with distinct categories, every category reads its own skills |
| Constants.SharedSkillNames | constants.ts:22-51 | Swift and Kotlin are listed both under Programming Languages and Mobile App Development |
| Constants.SocialPlatformNames | constants.ts:124-137 | the social platform names in order |
| Constants.ProblemSolvingPlatformNames | constants.ts:117-122 | the problem-solving platform names in order |
| Constants.PlatformNamesDistinct | constants.ts:117-137 | platform names are distinct, so `find` by name returns each platform itself |
| Constants.SocialNamesDistinct | constants.ts:124-137 | the social platform names are distinct |
| Constants.ProblemSolvingNamesDistinct | constants.ts:117-122 | the problem-solving platform names are distinct |
| Constants.FindUnique | App.tsx:87 | a find by a key no other entry has returns that entry |
| Constants.ProjectCategoriesShape | constants.ts:145 | nine distinct categories, exactly the names of the category type |
| Constants.InitialFormData | constants.ts:202-300 | the initial record has distinct section orders, an existing default background and a well-formed tech stack (Constants.SectionOrdersDistinct, Constants.DefaultBackgroundExists, Store.ResetIsWellFormed) |
| Constants.SectionOrdersDistinct | constants.ts:163-190 | both section orders are duplicate-free; only the initial one lists Appearance |
| Constants.DefaultKeysDistinct | constants.ts:163-190 | the default section order is duplicate-free |
| Constants.InitialKeysDistinct | constants.ts:280-284 | the initial section order is duplicate-free |
| Constants.NoDupsByPosition | constants.ts:163-190 | a list whose every element names its own position has no repeats |
| Constants.DefaultBackgroundExists | constants.ts:148 | gradient-1 is the first background and the initial profile header uses it |
| JsString.IndexOf | App.tsx:1062 | the first position at or after `from` where the needle starts, or none |
| JsString.LastIndexOf | App.tsx:1061 | the last such position, modelling the greedy `[\s\S]*` |
| JsString.ContainsSelf | App.tsx:1062 | every string contains itself |
| JsString.ContainsConcat | App.tsx:1062 | containment survives concatenation on either side |
| JsString.ContainsInfix | App.tsx:1062 | a string contains what sits between two others |
| JsString.StartsWithConcat | App.tsx:1062 | a prefix survives appending |
| JsString.ContainsEnd | App.tsx:1062 | a string contains its own suffix |
| JsString.ContainsTrans | App.tsx:1062 | containment is transitive |
| JsString.OrElse | App.tsx:415 | a JavaScript `or` on strings: the fallback exactly when the value is empty or equal to it, and empty only when both are |
| JsString.Join | App.tsx:1057 | `join`: empty for no parts, the part itself for one, and otherwise starting with the first part |
| JsString.JoinEmpty | App.tsx:1057 | with a non-empty separator, the join is empty exactly when there is no part or one empty part |
| JsString.JoinContains | App.tsx:1057 | the join contains each part |
| JsString.Template | App.tsx:743 | a template literal starts with its first piece |
| JsString.TemplateHas | App.tsx:743 | a template literal contains each of its pieces |
| JsString.Split | App.tsx:985 | `split(c)` always gives at least one piece |
| JsString.SplitPiecesFree | App.tsx:985 | no piece of `split(c)` holds `c` |
| JsString.JoinSplit | App.tsx:985 | joining the pieces with `c` gives back the string |
| JsString.SplitAround | App.tsx:985 | splitting at a separator splits the two sides |
| JsString.SplitCons | App.tsx:985 | one more leading character either opens a new empty piece (the separator) or joins the first piece |
| JsString.SplitNone | App.tsx:985 | a string without `c` splits into itself |
| JsString.BeforeFirst | App.tsx:895 | `split('-')[0]`: the prefix before the first `c` |
| JsString.TrimStart | App.tsx:1067 | the suffix left after removing leading white space |
| JsString.TrimEnd | App.tsx:1067 | the prefix left after removing trailing white space |
| JsString.Trim | App.tsx:1067 | `trim`: empty exactly when the string is all white space; otherwise it starts and ends with non-white characters |
| JsString.ContainsTrim | App.tsx:1067 | trimming keeps every infix that has non-white ends |
| JsString.ContainsTrimEnd | App.tsx:1067 | trimming the end keeps an infix with a non-white end in place |
| JsString.ContainsTrimStart | App.tsx:1067 | trimming the start keeps an infix with a non-white start |
| JsString.TrimStartStops | App.tsx:1067 | leading trimming stops at the first non-white character |
| JsString.TrimLeading | App.tsx:716 | trimming white space off the front of a trimmed body gives the body |
| JsString.TrimStartWhite | App.tsx:716 | leading trimming removes exactly the white prefix |
| JsString.TrimEndWhite | App.tsx:716 | trailing trimming removes exactly the white suffix |
| JsString.TrimAround | App.tsx:705-716 | trimming a body between white margins gives the body |
| JsString.TrimParts | App.tsx:1067 | the two trims give an empty result exactly on all-white input |
| JsString.AllWhiteConcat | App.tsx:1067 | white space concatenates to white space |
| JsString.TrimStartEmpty | App.tsx:1067 | leading trimming empties exactly the all-white strings |
| JsString.TrimEndEmpty | App.tsx:1067 | trailing trimming empties exactly the all-white strings |
| JsString.TrimIdempotent | App.tsx:1067 | trimming twice is trimming once |
| JsString.ToLower | components/FormPanel.tsx:728 | `toLowerCase` on ASCII letters, length kept |
| JsString.ReplaceSpaces | App.tsx:887 | `replace(/ /g, c)`: every space becomes `c`, nothing else changes |
| JsString.DigitChar | App.tsx:704 | a decimal digit character |
| JsString.NatToString | App.tsx:706 | decimal digits without a leading zero |
| JsString.NatToStringValue | App.tsx:706 | the digits read back as the number |
| JsString.NatToStringInjective | App.tsx:706 | different numbers print differently |
| JsString.IntToString | App.tsx:1036 | a minus sign before the digits for negative numbers |
| JsString.Round | App.tsx:704 | `Math.round(n / d)` with halves rounded up, exactly |
| JsString.StripDeviconVariant | App.tsx:887 | the variant-stripping replace never lengthens a name and leaves one without `-` alone |
| JsString.TagClose | App.tsx:674 | the first `>` after a `<` |
| JsString.StripTags | App.tsx:674 | `replace(/<.+?>/g, '')` never lengthens a string and leaves one without `<` alone |
| JsString.ReplaceSpanNone | App.tsx:1061 | without a start marker followed by an end marker the replace changes nothing |
| JsString.ReplaceSpanParts | App.tsx:1061-1064 | with a start marker at a and an end marker at b, the text from the first start to the end of the last end marker is replaced by the replacement with its `$` patterns expanded against that match, and the result contains the expansion |
| JsString.FirstOccurrence | App.tsx:1061 | when the needle occurs at a, its first occurrence is at or before a |
| JsString.LastOccurrence | App.tsx:1061 | when the needle occurs at b, its last occurrence is at or after b |
| JsString.FindSpan | App.tsx:1061-1064 | the bounds of the match lie inside the text, in order |
| JsString.SpanLocated | App.tsx:1061-1064 | with a start marker at a and an end marker at b, the match begins at or before a and ends at or after b |
| JsString.SpanFirstToLast | App.tsx:1061-1064 | the match begins with the first start marker and ends with the last end marker after it: no start marker stands before it and no end marker after its end |
| JsString.SpanReplaced | App.tsx:1061-1064 | a found match is replaced by the expanded replacement, with the text before and after kept |
| JsString.SpanFound | App.tsx:1061-1064 | the match runs from the first start marker to the end of the last end marker after it |
| JsString.SubstituteLiteral | App.tsx:1064 | a replacement without `$` is inserted as it is |
| JsString.SubstituteFreePrefix | App.tsx:1064 | text without `$` in front of the replacement is copied and the rest expanded |
| JsString.SubstituteAppend | App.tsx:1064 | expanding two pieces back to back is expanding each, when no pattern starts across the seam |
| JsString.CollapseDividers | App.tsx:1067 | collapsing divider runs never lengthens the text |
| JsString.CollapseRuns | App.tsx:1067 | `replace(/(d)+/g, d)` never lengthens the text |
| JsString.SkipLeading | App.tsx:1067 | the rest of the text after a run of dividers |
| JsString.CollapseNoRun | App.tsx:1067 | text without two adjacent dividers is unchanged |
| JsString.NoRunSuffix | App.tsx:1067 | a suffix of run-free text is run-free |
| JsString.DoubleAtStart | App.tsx:1067 | two dividers at the start are a run |
| JsString.CollapseRun | App.tsx:1067 | a run of k ≥ 1 dividers becomes one divider |
| JsString.SkipRun | App.tsx:1067 | skipping a run of dividers leaves the text after it |
| JsString.PrefixConcat | App.tsx:743 | a concatenation starts with its left part, followed by the right part |
| TextSections.RenderBasicInfo | App.tsx:743 | the greeting heading followed by the bio, always non-empty |
| TextSections.RenderMyMission | App.tsx:744 | empty exactly when the mission is empty (TextSections.MissionSection) |
| TextSections.MissionSection | App.tsx:744 | empty exactly when the mission is empty; otherwise the heading followed by the mission |
| TextSections.SupportBadge | App.tsx:970-971 | a support badge starts as a markdown image link and links to the user's page on its platform |
| TextSections.RenderSupportMe | App.tsx:968-974 | empty exactly when both handles are empty; each handle is linked (TextSections.SupportSection, TextSections.SupportHandlesShown) |
| TextSections.SupportSection | App.tsx:968-974 | empty exactly when both handles are empty; otherwise the heading and the present badges, joined by a space |
| TextSections.SupportHandlesShown | App.tsx:968-974 | each present handle's page link appears |
| TextSections.RenderBlogPosts | App.tsx:975 | empty exactly when there is no blog URL (TextSections.BlogSection) |
| TextSections.BlogSection | App.tsx:975 | empty exactly when there is no blog URL; otherwise a fixed block holding the blog placeholder |
| TextSections.RenderFooter | App.tsx:1031-1046 | empty exactly when the footer text is empty; otherwise it shows the text (TextSections.FooterSection) |
| TextSections.FooterSection | App.tsx:1031-1046 | empty exactly when the text is empty; otherwise it contains the text; the simple style starts with a rule; the card style shows the width |
| ListSections.Filter | App.tsx:792 | `filter`: the elements kept are exactly those passing the test |
| ListSections.Map | App.tsx:792 | `map`: the same length, element by element |
| ListSections.Titled | App.tsx:795 | `content ? heading + content : ''` |
| ListSections.ListSectionEmpty | App.tsx:791-796 | a list section is empty exactly when no entry passes its filter, and otherwise starts with its heading |
| ListSections.ListSectionShows | App.tsx:791-796 | every kept entry's block appears in its section |
| ListSections.PrefixStarts | App.tsx:795 | a heading starts the titled text |
| ListSections.RenderWorkExperience | App.tsx:791-796 | empty exactly when there are no work entries with a title and a company; every kept entry is shown (ListSections.WorkExperienceEmpty, ListSections.WorkExperienceShown) |
| ListSections.WorkExperienceEmpty | App.tsx:791-796 | empty exactly when no entry has both a title and a company; otherwise starts with the heading |
| ListSections.WorkExperienceShown | App.tsx:791-796 | every kept entry's title and company appear |
| ListSections.RenderVolunteering | App.tsx:797-802 | empty exactly when there are no volunteering entries with a role and an organisation; every kept entry is shown (ListSections.VolunteeringEmpty, ListSections.VolunteeringShown) |
| ListSections.VolunteeringEmpty | App.tsx:797-802 | empty exactly when no entry has both an organisation and a role |
| ListSections.VolunteeringShown | App.tsx:797-802 | every kept entry's role and organisation appear |
| ListSections.RenderEducation | App.tsx:829-834 | empty exactly when there are no education entries with an institution; every kept entry is shown (ListSections.EducationEmpty, ListSections.EducationShown) |
| ListSections.EducationEmpty | App.tsx:829-834 | empty exactly when no entry has an institution |
| ListSections.EducationShown | App.tsx:829-834 | institution, degree or "Degree", duration or "Year" appear for every kept entry |
| ListSections.RenderCertifications | App.tsx:835-841 | empty exactly when there are no certifications with a name; every kept entry is shown (ListSections.CertificationsEmpty, ListSections.CertificationShown) |
| ListSections.CertificationsEmpty | App.tsx:835-841 | empty exactly when no certification has a name |
| ListSections.CertificationShown | App.tsx:835-841 | every kept name appears, as a link when it has a URL |
| ListSections.RenderResearch | App.tsx:842-847 | empty exactly when there are no research entries with a title; every kept entry is shown (ListSections.ResearchEmpty, ListSections.ResearchShown) |
| ListSections.ResearchEmpty | App.tsx:842-847 | empty exactly when no entry has a title |
| ListSections.ResearchShown | App.tsx:842-847 | every kept title appears |
| ListSections.RenderAwards | App.tsx:848-853 | empty exactly when there are no awards with a name; every kept entry is shown (ListSections.AwardsEmpty, ListSections.AwardsShown) |
| ListSections.AwardsEmpty | App.tsx:848-853 | empty exactly when no award has a name |
| ListSections.AwardsShown | App.tsx:848-853 | every kept name appears |
| ListSections.RenderPublications | App.tsx:854-859 | empty exactly when there are no publications with a title; every kept entry is shown (ListSections.PublicationsEmpty, ListSections.PublicationsShown) |
| ListSections.PublicationsEmpty | App.tsx:854-859 | empty exactly when no publication has a title |
| ListSections.PublicationsShown | App.tsx:854-859 | every kept title appears |
| ListSections.RenderTalks | App.tsx:860-865 | empty exactly when there are no talks with a title; every kept entry is shown (ListSections.TalksEmpty, ListSections.TalksShown) |
| ListSections.TalksEmpty | App.tsx:860-865 | empty exactly when no talk has a title |
| ListSections.TalksShown | App.tsx:860-865 | every kept title appears |
| ListSections.RenderHackathons | App.tsx:955-960 | empty exactly when there are no hackathons with a name; every kept entry is shown (ListSections.HackathonsEmpty, ListSections.HackathonShown) |
| ListSections.HackathonsEmpty | App.tsx:955-960 | empty exactly when no hackathon has a name |
| ListSections.HackathonShown | App.tsx:955-960 | every kept name appears, with its project link when it has one |
| ListSections.RenderProblemSolving | App.tsx:961-967 | empty exactly when no profile has a user name, or the only one that has names an unknown platform; a kept profile on a known platform shows its user name (ListSections.ProblemSolvingEmpty, ListSections.KnownPlatformShowsUser) |
| ListSections.ProblemSolvingEmpty | App.tsx:961-967 | empty exactly when no profile has a user name, or the one that has names an unknown platform |
| ListSections.KnownPlatformShowsUser | App.tsx:961-967 | a kept profile on a known platform shows its user name |
| ListSections.BulletsSection | App.tsx:866-867 | a bullet section is empty exactly when there are no items, and shows each item |
| ListSections.RenderLanguages | App.tsx:866 | empty exactly when there is no language; every language is shown (ListSections.TagSections) |
| ListSections.RenderHobbies | App.tsx:867 | empty exactly when there is no hobby; every hobby is shown (ListSections.TagSections) |
| ListSections.TagSections | App.tsx:866-867 | languages and hobbies are empty exactly when their lists are, and show every entry |
| SocialSection.BadgeItem | App.tsx:755-760 | a badge link to the profile URL |
| SocialSection.IconItem | App.tsx:762-770 | an icon link to the profile URL |
| SocialSection.ListItem | App.tsx:772-784 | a list entry linking to the profile URL |
| SocialSection.ContentShowsUrl | App.tsx:753-787 | in every style, each visible link's URL appears |
| SocialSection.HeadedStarts | App.tsx:789 | a non-empty section starts with the heading |
| SocialSection.HeadedShows | App.tsx:789 | the heading keeps the content's URLs |
| SocialSection.SocialsSectionEmpty | App.tsx:745-790 | empty exactly when no link has both a URL and a platform; otherwise starts with the heading |
| SocialSection.NoneVisible | App.tsx:747-748 | no link is kept exactly when none has both a URL and a platform |
| SocialSection.ContentNonEmpty | App.tsx:753-787 | a first kept link with a URL makes the content non-empty |
| SocialSection.HeadedEmpty | App.tsx:748-789 | the headed section is empty exactly when no link is kept, and otherwise starts with the heading |
| SocialSection.VisibleAt | App.tsx:747 | a visible link has a position among the visible links |
| SocialSection.HeadedContentShows | App.tsx:745-790 | the headed content shows each visible URL |
| SocialSection.SocialShown | App.tsx:745-790 | every visible link's URL appears in the section |
| SocialSection.RenderSocials | App.tsx:745-790 | the social section (SocialSection.SocialsRendered) |
| SocialSection.SocialsRendered | App.tsx:745-790 | empty exactly when no link is visible; otherwise it starts with the Connect heading and shows the URL of every visible link |
| ProjectSections.BoxIsDetails | App.tsx:680-684 | the box layout is the trimmed details element |
| ProjectSections.BoxShows | App.tsx:680-684 | the box keeps what its header shows |
| ProjectSections.ListItemParts | App.tsx:686-694 | a list item starts with "- " and the header, and shows the tech line |
| ProjectSections.HeaderStartsWithTitle | App.tsx:637-640 | the header starts with the bold name |
| ProjectSections.ProjectShowsTitle | App.tsx:634-694 | every project renders its bold name; the list layout starts with it and shows the tech joined by commas |
| ProjectSections.BulletStartsWithTitle | App.tsx:634-694 | a bullet whose header starts with the title starts with the bulleted title and shows it |
| ProjectSections.TitleFramed | App.tsx:634-694 | a bold title is non-empty and starts and ends with a non-white character, so trimming keeps it |
| ProjectSections.BlocksShow | App.tsx:826 | the joined blocks show each project |
| ProjectSections.FilterNone | App.tsx:824 | a filter nothing passes is empty |
| ProjectSections.ProjectPartition | App.tsx:805 | a named project is featured or listed by category according to its flag, never both |
| ProjectSections.FeaturedSectionEmpty | App.tsx:823-828 | empty exactly when no project is named and featured; otherwise starts with the heading |
| ProjectSections.FeaturedShown | App.tsx:823-828 | every featured project appears |
| ProjectSections.RenderFeaturedProjects | App.tsx:823-828 | the featured projects section (ProjectSections.FeaturedProjectsRendered) |
| ProjectSections.FeaturedProjectsRendered | App.tsx:823-828 | empty exactly when no project is featured; every featured project's title is shown |
| ProjectSections.AppendCategories | App.tsx:814-820 | the loop over the categories appends exactly the body specification |
| ProjectSections.BuildProjects | App.tsx:803-822 | the constructed section equals its specification |
| ProjectSections.BodyStep | App.tsx:814-820 | one more category appends its block |
| ProjectSections.BodyShows | App.tsx:814-820 | a listed project in one of the categories appears in the body |
| ProjectSections.BodyShowsBlock | App.tsx:814-820 | the body contains each category's block |
| ProjectSections.BodyEmpty | App.tsx:815 | with no project in any category the body is empty |
| ProjectSections.ProjectsSectionEmpty | App.tsx:811 | empty exactly when no project is named and unfeatured |
| ProjectSections.GroupShows | App.tsx:816-817 | a listed project appears in its category's block |
| ProjectSections.ListedProjectShown | App.tsx:803-822 | a listed project of a known category appears in the section |
| ProjectSections.UnknownCategoriesLeaveHeading | App.tsx:811-821 | when every listed project has a category outside the list, only the trimmed heading remains |
| ProjectSections.RenderProjects | App.tsx:803-822 | the projects section (ProjectSections.ProjectsRendered) |
| ProjectSections.ProjectsRendered | App.tsx:803-822 | empty exactly when no project is listed; every listed project of a known category shows its title |
| TechSection.FindSkill | App.tsx:880 | `new Map(...).get(name)`: none exactly when no skill has the name; otherwise the last skill with it |
| TechSection.BadgeStyleNames | App.tsx:882 | the badge branch is taken exactly for style names starting with "badge" |
| TechSection.ShieldStyleName | App.tsx:883-884 | plain badge uses for-the-badge; the others drop the "badge-" prefix |
| TechSection.BadgeItem | App.tsx:885-889 | a badge showing the skill name |
| TechSection.IconItem | App.tsx:892-896 | an icon or a text tile showing the skill name |
| TechSection.StarItem | App.tsx:899-908 | a starred tile showing the skill name |
| TechSection.IconTextItem | App.tsx:911-917 | a list entry showing the skill name |
| TechSection.TableItem | App.tsx:920-927 | a table row showing the skill name |
| TechSection.PillItem | App.tsx:930-932 | a pill badge showing the skill name |
| TechSection.ItemShowsName | App.tsx:882-951 | in every style, the skill markup shows the name |
| TechSection.BodyStep | App.tsx:874-951 | one more category appends its block |
| TechSection.AppendStack | App.tsx:874-951 | the loop over the categories appends exactly the body specification |
| TechSection.BuildTechStack | App.tsx:868-954 | the constructed section equals its specification |
| TechSection.BodyEmpty | App.tsx:876 | with every category empty, the body is empty |
| TechSection.StackSectionEmpty | App.tsx:870-871 | empty exactly when no category has a skill |
| TechSection.Markup | App.tsx:882-951 | one category's markup in the chosen style (TechSection.MarkupShows) |
| TechSection.MarkupShows | App.tsx:882-951 | a category's markup shows each of its skills |
| TechSection.BodyShowsBlock | App.tsx:874-951 | the body contains each category's block |
| TechSection.BodyShowsSkill | App.tsx:874-951 | the body shows every chosen skill |
| TechSection.HeadedShows | App.tsx:953 | trimming the headed body keeps a name with non-white ends |
| TechSection.SkillShown | App.tsx:868-954 | the section shows every chosen skill whose name has non-white ends |
| TechSection.RenderTechStack | App.tsx:868-954 | the tech stack section (TechSection.TechStackRendered, TechSection.TechStackShowsSkill) |
| TechSection.TechStackRendered | App.tsx:868-954 | empty exactly when no category has a skill |
| TechSection.TechStackShowsSkill | App.tsx:868-954 | every chosen skill whose name has non-white ends is shown |
| TechSection.SectionShows | App.tsx:953 | what the body shows and trimming cannot cut into, the section shows |
| TechSection.BreaksOnlyConcat | App.tsx:934-943 | text whose only tags are line breaks concatenates to such text |
| TechSection.BreaksOnlyJoin | App.tsx:934-943 | joining such parts keeps it |
| TechSection.BreaksOnlyWhiteEnd | App.tsx:953 | it survives dropping white space at the end |
| TechSection.BreaksOnlySuffix | App.tsx:953 | it survives taking a suffix |
| TechSection.BreaksOnlyTrim | App.tsx:953 | it survives trimming |
| TechSection.NoLtBreaksOnly | App.tsx:934-943 | text without `<` qualifies |
| TechSection.BreaksOnlyNoImage | App.tsx:934-943 | such text holds no image tag |
| TechSection.TextItemBreaksOnly | App.tsx:934-943 | a text-style item of a tag-free name qualifies |
| TechSection.TextMarkupBreaksOnly | App.tsx:934-943 | a text-style category of tag-free names qualifies |
| TechSection.TextBlockBreaksOnly | App.tsx:934-943 | a text-style category block with a tag-free heading and names contains only line-break tags |
| TechSection.TextSeparatorBreaksOnly | App.tsx:934-943 | the separators of the text styles contain no tag other than `<br>` |
| TechSection.TextBodyBreaksOnly | App.tsx:874-951 | a text-style body of tag-free categories and names qualifies |
| TechSection.HeadedBreaksOnly | App.tsx:873 | the heading keeps it |
| TechSection.TextStylesWriteNoImages | App.tsx:934-943 | the list-style tech stacks of tag-free names contain no image |
| StatsSections.IndentLinesShows | App.tsx:985 | each non-empty line comes out indented by two spaces |
| StatsSections.CenteredShows | App.tsx:985 | the centred block shows each indented non-empty line |
| StatsSections.AnalyticsContentEmpty | App.tsx:982-983 | the analytics content is empty exactly when neither the graph nor a chart with a user is on |
| StatsSections.RenderGithubAnalytics | App.tsx:976-986 | empty exactly when there is no GitHub user or nothing is on (StatsSections.AnalyticsSection) |
| StatsSections.AnalyticsSection | App.tsx:976-986 | the analytics section is empty exactly when there is no GitHub user or nothing is on |
| StatsSections.WithOptionsParts | App.tsx:995-1006 | the metrics URL starts with its base and carries each enabled option's parameters; with none enabled it is the base |
| StatsSections.MetricsUrlParts | App.tsx:992-1006 | the same for the record's metrics URL |
| StatsSections.MetricsCardShowsUrl | App.tsx:1008-1009 | the advanced card shows the metrics URL |
| StatsSections.ContentOfEmpty | App.tsx:1018-1027 | the standard content is empty exactly when no card is on |
| StatsSections.StatsFromEmpty | App.tsx:987-1030 | the stats section is empty exactly when there is no GitHub user, or the standard cards are chosen and none is on |
| StatsSections.AdvancedStatsShowMetrics | App.tsx:991-1010 | the advanced section shows the metrics URL |
| StatsSections.PinnedLinesSplit | App.tsx:1020 | the placeholder's start and end markers are lines of their own |
| StatsSections.CenteredShowsPinned | App.tsx:1020-1029 | with pinned repositories on, both markers appear indented |
| StatsSections.StatsShowPinnedPlaceholder | App.tsx:1020-1029 | the standard section shows both markers |
| StatsSections.RenderedStatsShowPinnedPlaceholder | App.tsx:987-1030 | the rendered stats show the start marker |
| StatsSections.RenderGithubStats | App.tsx:987-1030 | the stats section (StatsSections.GithubStatsRendered, StatsSections.GithubStatsShowMetrics) |
| StatsSections.GithubStatsRendered | App.tsx:987-1030 | empty exactly when there is no GitHub user, or the standard cards are chosen and none is on |
| StatsSections.GithubStatsShowMetrics | App.tsx:991-1010 | with a user and the advanced cards, the section shows the metrics image URL |
| Banners.BannerHeight | App.tsx:702-704 | the SVG height for an aspect ratio at width 1200 (Banners.BannerHeights) |
| Banners.BannerHeights | App.tsx:702-704 | 1200 wide: 1200, 675, 2133, 900 and 1600 high for 1:1, 16:9, 9:16, 4:3 and 3:4 |
| Banners.BannerText | App.tsx:713-714 | the text elements show title and subtitle and end the SVG body with `>` |
| Banners.TailIsWhite | App.tsx:715-716 | the template's margins are white space |
| Banners.MainSvgFront | App.tsx:706-712 | the main SVG starts with its width and computed height |
| Banners.Embed | App.tsx:718 | the markdown image starts with its prefix and holds the encoded SVG |
| Banners.TrimTemplate | App.tsx:705-716 | trimming the template gives the SVG element itself |
| Banners.MainSvgShows | App.tsx:705-716 | the main SVG has the ratio's height and shows title and subtitle |
| Banners.MainBanner | App.tsx:698-719 | the main banner (Banners.MainBannerParts) |
| Banners.MainBannerParts | App.tsx:698-719 | empty exactly when disabled; otherwise the Main Banner image holding the encoded SVG |
| Banners.ResolveFallsBack | App.tsx:724 | a known key resolves to itself, an unknown one to gradient-1 |
| Banners.BackgroundResolves | App.tsx:724 | with the shipped table every key resolves, an unknown one to the first background |
| Banners.ProfileSvgFront | App.tsx:728-735 | the profile SVG starts with `<` and holds the background's definitions |
| Banners.ProfileSvgShows | App.tsx:727-739 | the trimmed profile SVG holds the definitions, the title followed by the name, and the subtitle |
| Banners.ProfileBanner | App.tsx:720-741 | the profile banner (Banners.ProfileBannerParts, Banners.ProfileHeaderShown) |
| Banners.ProfileBannerParts | App.tsx:720-741 | empty exactly when disabled or no background resolves; otherwise the Profile Banner image holding the encoded, trimmed SVG |
| Banners.ProfileHeaderShown | App.tsx:720-741 | with the shipped backgrounds, empty exactly when disabled; otherwise it starts with the image prefix |
| Markdown.Output | App.tsx:743-1047 | the renderer of each section key (Markdown.RendererTable) |
| Markdown.RendererTable | App.tsx:743-1047 | basic info always renders something, and custom HTML passes through |
| Markdown.Sections | App.tsx:1053-1055 | the kept fragments: no more than the keys, none empty |
| Markdown.SectionsAppend | App.tsx:1053-1055 | the fragments of two orders concatenated are the two fragment lists concatenated |
| Markdown.SectionsOne | App.tsx:1054 | one key contributes its fragment when it renders something |
| Markdown.SilentKey | App.tsx:1054-1055 | a key with no renderer or an empty fragment can be dropped from the order without changing the fragments |
| Markdown.SectionShown | App.tsx:1053-1055 | every non-empty fragment of a key in the order is kept |
| Markdown.SectionInText | App.tsx:1057 | every non-empty fragment appears in the joined text |
| Markdown.SectionsFromOrder | App.tsx:1053-1055 | every kept fragment comes from a key in the order |
| Markdown.TopReposBadge | App.tsx:1063 | the pinned repositories badge names the user |
| Markdown.ResolvePinned | App.tsx:1060-1064 | the pinned placeholder is removed, replaced by the badge, or left alone (Markdown.PinnedRemoved, Markdown.PinnedReplaced, Markdown.NoPlaceholderKept) |
| Markdown.Assemble | App.tsx:1052-1068 | the README of a section order and a renderer table (Markdown.NothingToShow) |
| Markdown.NothingToShow | App.tsx:1052-1068 | with no fragment the document is empty |
| Markdown.PinnedRemoved | App.tsx:1060-1061 | without a GitHub user or with pinned repositories off, the span from the first start marker to the last end marker is removed |
| Markdown.PinnedReplaced | App.tsx:1062-1064 | with a user and pinned repositories on, that span becomes the badge of the user name with its `$` patterns expanded against the span; a user name without `$` goes in as it is, and the badge is in the result |
| Markdown.PinnedSpanReplaced | App.tsx:1062-1064 | the span becomes the badge with its `$` patterns expanded |
| Markdown.BadgeSubstitution | App.tsx:1063-1064 | expanding `$` patterns in the badge expands them in the user name, in both places it appears |
| Markdown.LinkSubstitution | App.tsx:1063-1064 | the same for the badge from the first user name on |
| Markdown.BadgeShape | App.tsx:1063 | the badge is the fixed image text, the user, the fixed link text, the user and a closing parenthesis |
| Markdown.BadgeTextFree | App.tsx:1063 | the fixed text of the badge holds no `$` |
| Markdown.DollarAmpersandInserts | App.tsx:1064 | a user name `a$&` puts `a` and then the whole matched span into the badge |
| Markdown.NoPlaceholderKept | App.tsx:1060-1064 | text without a marker pair is left alone |
| Markdown.RenderMarkdown | App.tsx:1052-1068 | the `markdown` memo (Markdown.SilentFormEmpty) |
| Markdown.SilentFormEmpty | App.tsx:1052-1068 | when no key of the order renders anything, the README is empty |
| Markdown.SilentOrder | App.tsx:1053-1055 | an order none of whose keys has something to show has no sections |

## Left out

- Banners.MainBanner, ProfileBanner: the base64 encoding and the URL
  encoders are parameters. Nothing is proved about them beyond what
  they are given.
- Banners.BannerHeight: `Math.round` on floating point is modelled as
  exact rational rounding with halves up. `aiAspectRatio.split(':').map(Number)`
  is modelled as the five ratios of the type. Other strings, and NaN
  heights, are not modelled.
- Banners.ProfileBanner: when the key and gradient-1 are both missing,
  the model renders nothing, where the source would throw.
  Banners.BackgroundResolves shows this cannot happen with the shipped
  table.
- Banners.ProfileSvgFront: the background table's definitions are kept
  in `Constants.BackgroundSvgDefs`, separate from the records.
- Section keys are an enumeration. A key the renderer table does not
  know, the optional call `renderers[key]?.()` and object-prototype keys
  are not modelled.
- Values of the wrong type (undefined fields, null entries, parsed
  analysis JSON that is not the expected shape) are not modelled. The
  parsed fields are `Option`s of the right type.
- The network calls of the three analyses, their JSON extraction, the
  loading and error state, import and export of the record, and the
  clipboard are I/O and are left out. The user's confirmation in the
  reset is a parameter.
- Store.SetNumberField, Patches.SocialIconStylePatch.ApplyTo,
  Patches.SectionStylePatch.ApplyTo: the number fields are integers.
  These are the border radii, the icon size and border width, and the
  footer card width (types.ts:130-138, 208-209, 228). The form writes
  `valueAsNumber` into them (components/FormPanel.tsx:317, 394,
  572-573, 626-630). That value is NaN for a cleared input and may be a
  fraction. Neither is modelled, nor how the renderers would print it
  (Banners.MainBanner, SocialSection.RenderSocials,
  TextSections.RenderFooter and the section styles).
- Store.HandleSocialPlatformChange, Store.SetPlatform: they require
  `index <= |socials|`. A JavaScript write past the end leaves holes,
  and `TechStack` has no holes.
- Layout.HandleDragEnd: the keys are required to be in the order.
  `indexOf` returning −1 would make `splice(-1, 1)` remove the last
  entry; that is not modelled.
- TechStacks: the JavaScript object is modelled as an association list
  in insertion order. Integer-like keys, which JavaScript orders first,
  are not modelled.
- New entries added by the form (`addListItem` with a default entry) and
  the entry defaults of the form panel are outside the model, apart
  from the appended item itself.
- StatsSections.StatsShowPinnedPlaceholder: only the positive direction
  is proved. Nothing is said about the markers being absent when pinned
  repositories are off.
- TechSection.SkillShown, TechSection.HeadedShows, TechSection.SectionShows,
  TechSection.TechStackShowsSkill: they require a name
  whose first and last characters are not white space, since the final
  `trim` can cut into other names.
- TechSection.StackSectionEmpty, TechSection.TechStackRendered: state only the empty case, not that a
  non-empty section starts with the heading.
- ProjectSections.ListedProjectShown: only projects whose category is
  in the category list. Others are grouped but never printed
  (ProjectSections.UnknownCategoriesLeaveHeading).
- JsString.CollapseDividers: no lemma states that the collapsed text
  has no two adjacent dividers. CollapseRun and CollapseNoRun state how
  a single run and run-free text are treated.
- JsString.ToLower: ASCII case folding only; other letters are left as
  they are.
- JsString.StripTags, JsString.StripDeviconVariant: only the length
  bound and the identity on untouched input are stated, not the full
  regular expression semantics.
- The components not named here (panels, inputs, the AI panel) are
  rendering only and are not part of this model.

## Findings

| source | as written | input that shows it | evidently intended | confidence | as-written member | corrected member |
|---|---|---|---|---|---|---|
| App.tsx:192-198 (the same at 468-475) | `{ ...INITIAL_FORM_DATA.techStack }` copies only the outer object; `newTechStack[category].push(skillName)` then appends to the arrays shared with `INITIAL_FORM_DATA`, so the defaults grow with every analysis | a profile analysis returning `["React"]` for a category whose default list is empty: the defaults then hold React, a later analysis with no skills still shows it, and so does a reset | each analysis starts from the unchanged defaults: a category holds its defaults plus the analysed skills mapped to it and nothing from earlier analyses | not executed | Analysis.PlaceSkillsShared, Analysis.SharedArraysWitness | Analysis.ApplyProfileAnalysis, Analysis.ProfileAnalysisStack |
