# A verified model of the amb2 job board's front end

amb2 is the Next.js front end of a Japanese job board for the reuse (second-hand
goods) trade. Job seekers and employers register through modal forms. Employers
create and edit job postings. Visitors search openings by keyword, map-search
city and feature, and every signed-in role gets a side menu and an application
list. Administrators also maintain the feature catalogue and the recruiting
criteria.

This project models the logic of those screens in Dafny and proves what their
code promises:

- **Shared helpers** (`Helper`, `Constants`, `Api`): the option lists built for
  date and year selects, the query-string encoder, the image helpers, the
  prefecture, city and job-type tables, and the request records the API client
  builds.
- **Job search** (`JobOpenings`, `JobFilterForm`, `Features`, `CheckBoxGroup`):
  how the search state travels through the URL, how the filter form seeds and
  toggles its checkboxes, and how the feature tags are rendered.
- **Job editor** (`CreateNewJob`): the values it loads for an existing job, its
  validation schema, and the request body it submits.
- **Registration** (`RegisterJobSeeker`, `RegisterEmployer`, `FormRules`): the
  rules of the two registration forms and the payloads they send.
- **Administration** (`ApplicationMng`, `AddCriteriaModal`, `AddEditFeature`,
  `ApplicationCard`): the application list with its URL state, the two editing
  modals, and the application card.
- **Navigation and session** (`Sidebar`, `Breadcrumb`, `UseAuth`): the side menu
  per role, the breadcrumb trail, and the session hook that keeps token and
  profile in step with browser storage.

Code that works by changing state step by step is modelled as classes. This
covers the components' React state, browser storage, `FormData`, and
JavaScript arrays that are spliced or pushed in place. Their methods state the
whole new state, and loops are proved against specification functions.
Everything else is modelled as functions and lemmas.

JavaScript semantics the code relies on are written out in `Js` and `Text`:

- `Number()`, `parseInt`, number-to-text conversion;
- truthiness;
- `split`, `join`, `trim`, `toLowerCase`;
- `indexOf`.

The browser's date functions, URL encoding and the HTTP transport are
parameters or recorded requests, and so is the session hook's JSON codec.
`JSON.stringify` of request fields is written out in `Js`.

## Model

| member | source | states |
|---|---|---|
| Helper.EstablishmentYearOptions | src/utils/helper.ts:6-21 | the year list always has 150 entries |
| Helper.EstablishmentYearOptionsValues | src/utils/helper.ts:6-21 | entry 0 is the "年" placeholder with value "0"; entry i (1..149) is the year currentYear − i, so the current year itself is never offered |
| Helper.DateYear | src/utils/helper.ts:25 | `new Date(y, m)` reads years 0..99 as 1900..1999 and every other year as itself |
| Helper.DaysInMonth | src/utils/helper.ts:25 | a month has 28 to 31 days; February has 29 exactly in a leap year; among the other months, exactly April, June, September and November have 30 |
| Helper.LastDayOfMonth | src/utils/helper.ts:24-25 | the day count is NaN exactly when the year or the month is NaN, and otherwise lies in 28..31 |
| Helper.Pred | src/utils/helper.ts:25 | `x - 1` is NaN exactly for NaN and otherwise one less |
| Helper.EstablishmentDateOptionsLength | src/utils/helper.ts:23-40 | the day list is empty exactly for a NaN year or month, and otherwise has as many entries as the month has days |
| Helper.EstablishmentDateOptionsMissDayOne | src/utils/helper.ts:27-39 | as written, no entry of the day list has the value 1 (see Findings) |
| Helper.EstablishmentDateOptionsJanuary | src/utils/helper.ts:27-39 | for January 2024 the list has 31 entries: the placeholder first, "31" last and no "1" (see Findings) |
| Helper.DayOptions | src/utils/helper.ts:23-40 | the corrected day list has the placeholder plus one entry per day of the month, and is empty for a NaN year or month |
| Helper.DayOptionsInsertDayOne | src/utils/helper.ts:27-39 | the corrected list is the as-written one with the entry for day 1 inserted after the placeholder (see Findings) |
| Helper.DayOptionsOfferEveryDay | src/utils/helper.ts:23-40 | in the corrected list, every day d of the month is offered at position d, and nothing else is |
| Helper.ToNumberOfNumberToString | src/utils/helper.ts:42-48 | reading the text of a number back with `Number()` gives that number |
| Helper.TakeDatePartOf | src/utils/helper.ts:42-48 | the part a unit character ends is read back, together with the text after it |
| Helper.FlexibleDateRoundTrip | src/utils/helper.ts:42-48 | `formatFlexibleDate` loses nothing: reading its text back by unit yields the year, month and day it was given, each present or absent |
| Helper.QueryValue | src/utils/helper.ts:50-58 | a parameter is dropped from the query exactly when it is `undefined` or `null` |
| Helper.QueryPairs | src/utils/helper.ts:50-58 | the query has no more pairs than the record has fields |
| Helper.QueryPairsMembership | src/utils/helper.ts:50-58 | a pair (key, text) is in the query exactly when some field of that key is present and renders as that text |
| Helper.QueryPieces | src/utils/helper.ts:50-58 | each pair becomes `key=value`, with both sides passed through the form encoder |
| Helper.QueryStringRoundTrip | src/utils/helper.ts:50-58 | for an encoder that never emits '&' or '=' and that the decoder inverts, parsing `toQueryString` gives back exactly the pairs of the present fields, in order |
| Helper.FirstFullImage | src/utils/helper.ts:60-64 | there is no URL exactly when the image list is missing or empty |
| Helper.FirstFullImageIsLast | src/utils/helper.ts:60-64 | despite its name, the URL comes from the last image alone and ends in "/" + its name |
| Helper.ImageFile | src/utils/helper.ts:66-72 | a path stays a path, and anything else (a file, null) is passed through unchanged |
| Helper.ImageFileName | src/utils/helper.ts:66-72 | the file name of a path is its suffix after the last '/', contains no '/', and reducing it again changes nothing |
| Helper.ImageFileOfFullImage | src/utils/helper.ts:60-72 | the file name of an image's full URL is the image's own name, whatever the base URL |
| Helper.PrefectureNameSpec | src/utils/helper.ts:74-77 | ids 1..47 give their prefecture's name from the options table; every other number, NaN included, gives "???" |
| Api.JobsRecordOf | src/lib/api.ts:107-116 | the four base fields, followed by the three conditional ones in order, form the `getJobs` record |
| Api.JobsRecordOfArgs | src/lib/api.ts:107-116 | the same holds for arguments that may be left out: a missing companyID, features or prefectures is never sent |
| Api.GetJobsParams | src/lib/api.ts:107-116 | the record starts with page, limit, searchTerm and jobType, in that order. companyID is present exactly when the argument is positive; features and prefectures exactly when they are non-empty; each appears at most once and nothing else is added |
| Api.GetJobs | src/lib/api.ts:98-120 | the request path is "/jobs?" followed by exactly the query string of that record |
| Api.ListQueryValue | src/utils/helper.ts:50-58 | a list parameter reaches the query string as `[a,b,…]` |
| Api.GetRecruitingCriterias | src/lib/api.ts:59-63 | the served array is sorted in place by display order, as a permutation of itself; a response without data gives a new empty array |
| Sorting.SortBy | src/lib/api.ts:61 | the array is sorted in place, ascending by the key, and is a permutation of its old contents |
| Sorting.Insert | src/lib/api.ts:61 | one insertion step: `a[i]` moves left past every larger element, so the prefix up to i becomes ascending, and the contents stay a permutation |
| Api.FormData.Append | src/lib/api.ts:136 | `append` adds one entry at the end, and the earlier entries are unchanged |
| Api.ParamEntries | src/lib/api.ts:134-137 | there is one text entry per parameter field |
| Api.ImageEntries | src/lib/api.ts:138-143 | one form entry per image |
| Js.JsonStringify | src/lib/api.ts:135 | `JSON.stringify` gives `undefined` exactly for `undefined`, and text for every other value |
| Api.JobEntriesLayout | src/lib/api.ts:133-144 | the body holds, in order: one entry per parameter field (strings verbatim), one 'introImages' entry per company image, one 'staffImages' entry per staff image, and a single 'thumbnail' entry last. No earlier entry is named 'thumbnail' unless the record has such a field |
| Api.BuildJobFormData | src/lib/api.ts:133-144 | the loops of the job request build a fresh `FormData` whose entries are exactly the job body |
| Api.CreateNewJob | src/lib/api.ts:132-153 | `createNewJob` POSTs the job body to /jobs |
| Api.UpdateJobById | src/lib/api.ts:155-176 | `updateJobById` PUTs the same body to /jobs/{id} |
| JsArrays.JsArray.SpliceOne | src/components/common/CheckBoxGroup.tsx:26 | `splice(i, 1)` removes exactly the element at i from the array itself |
| JsArrays.JsArray.Push | src/components/pages/jobs/JobFilterForm.tsx:84 | `push` appends the value to the array itself |
| CheckBoxGroup.HandleChangeOption | src/components/common/CheckBoxGroup.tsx:21-29 | the values passed on are the old selection with the clicked value toggled. An absent value gives a fresh array and leaves the caller's array untouched; a present value is spliced out of the caller's own array, which is passed on itself |
| CheckBoxGroup.ClickFlipsOnlyThatBox | src/components/common/CheckBoxGroup.tsx:21-43 | on a selection without duplicates, a click flips the clicked box. Every other box keeps its checked state (`includes`), and the other values keep their order |
| Seqs.ToggleFlips | src/components/pages/jobs/JobFilterForm.tsx:80-87 | on a list without duplicates, a toggle flips the value's membership, keeps every other value's membership, and leaves no duplicates |
| Seqs.ToggleKeepsOthers | src/components/common/CheckBoxGroup.tsx:21-29 | apart from the toggled value, the list keeps every element and their relative order |
| Seqs.ToggleTwice | src/components/pages/jobs/JobFilterForm.tsx:80-87 | toggling an absent value twice gives back exactly the original list |
| Breadcrumb.SegmentsShape | src/components/Breadcrumb.tsx:25 | every segment is non-empty and free of '/' |
| Breadcrumb.SegmentsOfJoin | src/components/Breadcrumb.tsx:25-30 | segments that are non-empty and free of '/', joined under a leading '/', split back into themselves |
| Breadcrumb.CrumbsSpec | src/components/Breadcrumb.tsx:25-40 | HOME comes first, then one crumb per segment. Each crumb is named from the table when its path is there, and otherwise by its own segment |
| Breadcrumb.CrumbSegments | src/components/Breadcrumb.tsx:28-37 | crumb i links to a path whose segments are exactly the first i segments of the pathname |
| Breadcrumb.RootIsHomeOnly | src/components/Breadcrumb.tsx:25-40 | a pathname made only of slashes, the root included, shows HOME alone |
| Breadcrumb.CrumbPathsExtend | src/components/Breadcrumb.tsx:28-40 | each crumb's path is a proper prefix of the next crumb's path |
| Breadcrumb.CrumbPathsDistinct | src/components/Breadcrumb.tsx:40-46 | the crumbs' paths, used as React keys, are pairwise distinct |
| Breadcrumb.Render | src/components/Breadcrumb.tsx:45-55 | there is one view per crumb, showing its name. Exactly the last view is plain text, and every earlier one links to its crumb's path |
| Constants.PrefectureOptionsValues | src/utils/constants.ts:772-822 | the prefecture select has 48 entries. The placeholder (value "") comes first, then the prefectures with the values "1" to "47" in order |
| Constants.PrefectureOptionsLabels | src/utils/constants.ts:772-822 | every entry of the prefecture select has a non-empty label |
| Constants.MonthOptionsValues | src/utils/constants.ts:823-836 | the month select has 13 entries; each value reads back as its own index, and every entry except the "月" placeholder shows its value as its label |
| Constants.RegionSearchOptionsValues | src/utils/constants.ts:1221-1255 | the eight regions of the job search carry the values "35" to "42" in order |
| Constants.PrefectureSearchOptionsValues | src/utils/constants.ts:1256-1493 | the 47 prefectures of the job search carry the values "43" to "89" in order, and each names one of the region values |
| Constants.AllCities | src/components/pages/jobs/JobOpenings.tsx:111-117 | the city list of no regions is empty; otherwise each region's cities follow in order |
| Constants.MapDataCities | src/utils/constants.ts:254-508 | the map-search cities are the cities of the eight regions, concatenated in table order |
| Constants.MapDataIdsConsecutive | src/utils/constants.ts:254-508 | within each region, the city ids are consecutive |
| Constants.MapDataCityIds | src/utils/constants.ts:254-508 | there are 47 map-search cities; their ids are exactly 43 to 89, and each id is found at a known position |
| Constants.MapDataCityIdsDistinct | src/utils/constants.ts:254-508 | no two map-search cities share an id |
| Constants.MapDataCityNamesDistinct | src/utils/constants.ts:254-508 | no two map-search cities share a name, so a lookup by name is unambiguous |
| Constants.MapDataCityNamesPlain | src/utils/constants.ts:254-508 | every map-search city name is non-empty and contains no comma, so it can travel in a comma-joined URL parameter |
| JobOpenings.FeatureEntries | src/components/pages/jobs/JobOpenings.tsx:123 | the feature lookup table has one entry per catalog feature, keyed by `id.toString()`, in catalog order |
| JobOpenings.CityEntries | src/components/pages/jobs/JobOpenings.tsx:132 | the city lookup table has one entry per city, keyed by `id.toString()`, in order |
| JobOpenings.LookupById | src/components/pages/jobs/JobOpenings.tsx:123-132 | `find` by id gives the first entry with that key, and nothing exactly when no entry has it |
| JobOpenings.LookupByName | src/components/pages/jobs/JobOpenings.tsx:162-166 | `find` by name gives the first entry with that name, and nothing exactly when no entry has it |
| JobOpenings.NamesOf | src/components/pages/jobs/JobOpenings.tsx:119-136 | ids that resolve nowhere are skipped, so there are never more names than ids |
| JobOpenings.IdsOf | src/components/pages/jobs/JobOpenings.tsx:157-171 | tokens that name nothing are dropped, so there are never more ids than tokens |
| JobOpenings.NamesOfResolving | src/components/pages/jobs/JobOpenings.tsx:119-136 | when every selected id resolves, there is one name per id, and name i is the name of id i's entry |
| JobOpenings.LookupNameOfId | src/components/pages/jobs/JobOpenings.tsx:123-166 | with distinct names, looking up the name of a resolved id finds that same entry |
| JobOpenings.IdsOfNamed | src/components/pages/jobs/JobOpenings.tsx:157-171 | when every token names an entry, there is one id per token, and id i is the key of token i's entry |
| JobOpenings.IdsOfNamesOf | src/components/pages/jobs/JobOpenings.tsx:119-171 | with distinct names, looking the names of resolving ids up again gives back exactly those ids |
| JobOpenings.DecodeEncode | src/components/pages/jobs/JobOpenings.tsx:119-171 | splitting the comma-joined names and looking them up gives back the selected ids, given that all of them resolve and the names are distinct, non-empty and comma-free |
| JobOpenings.CityNamesUsable | src/components/pages/jobs/JobOpenings.tsx:111-136 | the map-search cities meet those conditions |
| JobOpenings.CityAll | src/components/pages/jobs/JobOpenings.tsx:111-117 | the `concat` loop yields the cities of every region of the map data, in order |
| JobOpenings.TagsOf | src/components/pages/jobs/JobOpenings.tsx:138-155 | there is one tag per selected id; tag i carries id i and piece i of the split parameter, or no label past the end |
| JobOpenings.PushTags | src/components/pages/jobs/JobOpenings.tsx:142-153 | the `forEach` loop appends exactly those tags to the ones already pushed |
| JobOpenings.TagsAligned | src/components/pages/jobs/JobOpenings.tsx:138-155 | when every id resolves and the names are comma-free, each tag is labelled with the name of its own id |
| JobOpenings.TagsMisalignedAfterDrop | src/components/pages/jobs/JobOpenings.tsx:119-155 | an id missing from the table shifts later labels: for the selection ["999", "1"], with only feature 1 ("A") known, "999" is labelled "A" and "1" gets no label |
| JobOpenings.PageOf | src/components/pages/jobs/JobOpenings.tsx:85 | `Number(page) \|\| 1` is never 0 |
| JobOpenings.PageOfWritten | src/components/pages/jobs/JobOpenings.tsx:85-95 | a written page p other than 0 reads back as p, negatives included; a missing page or 0 reads as 1 |
| JobOpenings.UrlParamsGet | src/components/pages/jobs/JobOpenings.tsx:94-100 | reading page, searchTerm, prefectures and features from the pushed query gives exactly the values that were set |
| JobOpenings.NumberStrings | src/components/pages/jobs/JobOpenings.tsx:193-195 | `map(String)` gives the text of each number, position by position |
| JobOpenings.DecodeTokens | src/components/pages/jobs/JobOpenings.tsx:161-168 | the `forEach` loop pushes exactly the ids of the tokens that name an entry, in token order |
| JobOpenings.JobList.constructor | src/components/pages/jobs/JobOpenings.tsx:24-33 | the initial state: limit 10, page 1, empty search term, no selections or tags, modal closed, URL not yet read, nothing pushed |
| JobOpenings.JobList.ParseFeaturesAndPrefecturesParam | src/components/pages/jobs/JobOpenings.tsx:157-171 | features and prefectures become the decoded parameters; everything else is unchanged |
| JobOpenings.JobList.ReadUrl | src/components/pages/jobs/JobOpenings.tsx:77-88 | until the catalog has loaded, nothing changes. Then the search term, page and selections come from the query, and the URL is marked as read |
| JobOpenings.JobList.MountCommit | src/components/pages/jobs/JobOpenings.tsx:77-101 | in the mount commit with the catalog already loaded, the reading effect sets the flag before its state updates apply, so the writing effect pushes the state from before the read (from the initial state: page 1, an empty term, no selection); the state then takes the URL's values as the reading effect gives them |
| JobOpenings.JobList.WriteUrl | src/components/pages/jobs/JobOpenings.tsx:92-101 | before the URL has been read, nothing is pushed; afterwards, exactly the query of the current state is pushed, and nothing else changes |
| JobOpenings.JobList.UpdateSearchTags | src/components/pages/jobs/JobOpenings.tsx:138-155 | the tags become the feature tags followed by the prefecture tags; nothing else changes |
| JobOpenings.JobList.OnPageChange | src/components/pages/jobs/JobOpenings.tsx:187-189 | only the page changes |
| JobOpenings.JobList.OnSubmitFilterForm | src/components/pages/jobs/JobOpenings.tsx:191-197 | the modal closes. Prefectures become the submitted cities as text; features become conditions, employment types, items and job types, in that order, as text; the search term becomes the typed text |
| JobOpenings.UrlRoundTrip | src/components/pages/jobs/JobOpenings.tsx:77-101 | what the page pushes reads back as the same state. This holds for the page (when not 0) and the search term, and for both selections whenever every selected id resolves and the feature names are usable |
| JobOpenings.GetPrefecture | src/components/pages/jobs/JobOpenings.tsx:199-206 | it gives the name of the first feature whose parent id lies strictly between 34 and 43, or 'None' when there is none |
| JobOpenings.PrefectureBoundsAreRegions | src/components/pages/jobs/JobOpenings.tsx:201 | the hard-coded bounds 34 < p < 43 select exactly the region values of the prefecture search |
| JobOpenings.EmploymentTypeTagsSpec | src/components/pages/jobs/JobOpenings.tsx:215-220 | every feature whose parent is 4 gets a tag, every tag names such a feature, and there are never more tags than features |
| JobFilterForm.OfParentMembership | src/components/pages/jobs/JobFilterForm.tsx:38-41 | a feature is in the category of a parent exactly when it is in the catalog and has that parent; the category keeps catalog order |
| JobFilterForm.FilterOptionsPartition | src/components/pages/jobs/JobFilterForm.tsx:35-43 | without a catalog all four categories are empty. With one, job types, items, conditions and employment types are exactly the catalog features with parent 1, 2, 3 and 4, each in catalog order |
| JobFilterForm.CategoryKeysAreFilterGroups | src/components/pages/jobs/JobFilterForm.tsx:56 | the form's category keys are the keys of the filter table in constants.ts, in the same order |
| JobFilterForm.SelectedIdsMembership | src/components/pages/jobs/JobFilterForm.tsx:57-58 | an id is preselected in a category exactly when an option of that category has it and its text is among the page's features |
| JobFilterForm.ToNumbers | src/components/pages/jobs/JobFilterForm.tsx:61 | `[...prefectures].map(Number)` keeps one number per string |
| JobFilterForm.FirstRegionSpec | src/components/pages/jobs/JobFilterForm.tsx:46-53 | a region is found exactly when some region holds a preselected city. The region found holds one, and no earlier region does |
| JobFilterForm.FirstRegionAt | src/components/pages/jobs/JobFilterForm.tsx:46-53 | the first region holding a preselected city is the one found |
| JobFilterForm.FirstRegionNone | src/components/pages/jobs/JobFilterForm.tsx:46-53 | when no region holds a preselected city, none is found |
| JobFilterForm.FindRegion | src/components/pages/jobs/JobFilterForm.tsx:46-53 | the `for … break` loop finds exactly that first region |
| JobFilterForm.SeedCategories | src/components/pages/jobs/JobFilterForm.tsx:55-59 | the `temp` record has exactly the four category keys. Each holds a fresh array of its own with the preselected ids of that category |
| JobFilterForm.FilterForm.constructor | src/components/pages/jobs/JobFilterForm.tsx:29-32 | no area, no cities, an empty selection and an empty search term |
| JobFilterForm.FilterForm.OnMount | src/components/pages/jobs/JobFilterForm.tsx:45-65 | the first region holding a preselected city becomes the area, with its cities (otherwise both stay). The selection is seeded: 'prefectures' as numbers, each category with its preselected ids, each key its own fresh array. The search term is taken over |
| JobFilterForm.FilterForm.SeedSelection | src/components/pages/jobs/JobFilterForm.tsx:55-64 | the selection is seeded as above, and the area is left alone |
| JobFilterForm.FilterForm.PickArea | src/components/pages/jobs/JobFilterForm.tsx:46-53 | the loop shows the first region holding a preselected city, or changes nothing |
| JobFilterForm.FilterForm.ShowArea | src/components/pages/jobs/JobFilterForm.tsx:49-50 | `setArea` and `setCityList` show the region found |
| JobFilterForm.FilterForm.OnClickArea | src/components/pages/jobs/JobFilterForm.tsx:75-78 | the clicked region and its cities are shown; the selection is untouched |
| JobFilterForm.FilterForm.OnChangeSearchText | src/components/pages/jobs/JobFilterForm.tsx:94-96 | only the search term changes |
| JobFilterForm.FilterForm.OnClickOptions | src/components/pages/jobs/JobFilterForm.tsx:80-92 | the key's array has the id toggled in place: appended when absent, its first occurrence spliced out when present. A missing key gets a new array. The arrays of other keys keep their contents, and every key keeps an array of its own |
| JobFilterForm.FilterForm.Submit | src/components/pages/jobs/JobFilterForm.tsx:238 | `onSubmit` receives the current selection of every key and the typed search term |
| Features.FeatureKeyPieces | src/components/pages/jobs/Features.tsx:100 | for non-negative ids, a feature key `${owner}-${id}` splits into exactly the two rendered ids |
| Features.FeatureKeyDecodes | src/components/pages/jobs/Features.tsx:40-41 | `Number` of either piece of a key gives back the owner and the feature id |
| Features.KeyPrefixOf | src/components/pages/jobs/Features.tsx:89-103 | a key whose first part has no '-' yields that part as its prefix |
| Features.HasSubSectionSpec | src/components/pages/jobs/Features.tsx:29-32 | a section has sub-sections exactly when some type-2 feature of the catalog has it as parent |
| Features.SectionMapKeys | src/components/pages/jobs/Features.tsx:28-34 | an id is a key of the record exactly when some section has it, and it holds the last section with that id |
| Features.SectionMapSpec | src/components/pages/jobs/Features.tsx:26-34 | as above. In addition, the stored section has that id, and `hasSubSection` is set exactly when some type-2 feature has it as parent |
| Features.SectionsOfCatalog | src/components/pages/jobs/Features.tsx:22-36 | built from a catalog, the record has a key for exactly the ids of the type-1 features, each holding such a feature with its sub-section flag |
| Features.SubSectionUpdateSpec | src/components/pages/jobs/Features.tsx:87-91 | the new region key comes last. Before it are exactly the old keys whose numeric prefix is below the section count, in their old order |
| Features.SinglePrefectureSlot | src/components/pages/jobs/Features.tsx:87-91 | when the region's id is not below the section count, the region key is the only key of the new list whose prefix is not below it, so one prefecture is kept |
| Features.SectionUpdateSpec | src/components/pages/jobs/Features.tsx:93-96 | the keys of other sections come first, in their old order, then the new items. A key of the section survives only when it is among the new items |
| Features.IdOptions | src/components/pages/jobs/Features.tsx:57-64 | there is one option per feature |
| Features.IdOptionsMembership | src/components/pages/jobs/Features.tsx:57-64 | an option is exactly a feature rendered as (`id.toString()`, name) |
| Features.RegionOptionsSpec | src/components/pages/jobs/Features.tsx:57-60 | the region select offers exactly the section's type-2 children |
| Features.PrefectureOptionsSpec | src/components/pages/jobs/Features.tsx:61-64 | with region r chosen, the prefecture select offers exactly the type-3 children of r |
| Features.SectionItemOptionsSpec | src/components/pages/jobs/Features.tsx:98-111 | each checkbox is a type-3 child of the section, valued by its feature key, and is checked exactly when its key is in the selected list |
| Features.SectionUpdateSelects | src/components/pages/jobs/Features.tsx:93-109 | after `onUpdateSectionItems`, the section shows exactly the keys handed over, and every other section shows what it showed before |
| Features.RenderSectionSpec | src/components/pages/jobs/Features.tsx:116-122 | a section with sub-sections shows the two selects, bound to the current region and prefecture. Any other section shows its children as boxes, each checked exactly when its key is selected |
| Features.JobFeatures.constructor | src/components/pages/jobs/Features.tsx:17-19 | no region, no prefecture and no sections |
| Features.JobFeatures.OnFeaturesLoaded | src/components/pages/jobs/Features.tsx:22-36 | while loading nothing changes; otherwise the record becomes the sections of the catalog, and the region and prefecture are untouched |
| Features.JobFeatures.SyncRegion | src/components/pages/jobs/Features.tsx:38-46 | the last key whose region is above 5 sets the region and the prefecture (the latter `undefined` when the key has no '-'); without such a key both stay |
| Features.JobFeatures.OnSelectRegion | src/components/pages/jobs/Features.tsx:72 | only the region changes |
| Features.JobFeatures.OnChangeSubSectionItems | src/components/pages/jobs/Features.tsx:87-91 | the list handed to `onUpdate` is the sub-section update of the selection, with the number of sections counted from the record |
| CreateNewJob.ThumbnailValidSpec | src/components/pages/jobs/CreateNewJob.tsx:71-82 | the thumbnail passes exactly when it is a file, or a string with a character other than whitespace |
| CreateNewJob.PresetThumbnailValid | src/components/pages/jobs/CreateNewJob.tsx:71-82 | the thumbnail loaded from a stored job passes exactly when the job has a thumbnail image |
| CreateNewJob.UrlTailTrimmed | src/components/pages/jobs/CreateNewJob.tsx:93 | `\s*https?:\/\/[^\s]+$` matches exactly when the text without its leading whitespace starts with the scheme and runs to the end without whitespace |
| CreateNewJob.WebsiteLineOf | src/components/pages/jobs/CreateNewJob.tsx:93 | a non-empty one-line label, a colon, any spaces and an http(s) URL without whitespace make a line the pattern accepts |
| CreateNewJob.WebsiteLineShape | src/components/pages/jobs/CreateNewJob.tsx:93 | an accepted line has a colon after a non-empty label and does not end in whitespace |
| CreateNewJob.OtherWebsitesOfLines | src/components/pages/jobs/CreateNewJob.tsx:85-95 | accepted lines that trim to themselves, joined by newlines, pass the whole test |
| CreateNewJob.JoinOfLinesTrimmed | src/components/pages/jobs/CreateNewJob.tsx:91 | such a join has no whitespace at either end, so the outer `trim()` leaves it alone |
| CreateNewJob.WebsiteLineHead | src/components/pages/jobs/CreateNewJob.tsx:93 | an accepted line that trims to itself starts with a character other than whitespace |
| CreateNewJob.ImageUrlCaseInsensitive | src/components/pages/jobs/CreateNewJob.tsx:105-107 | the `i` flag: a URL passes exactly when its ASCII lower-case form passes |
| CreateNewJob.ImageUrlOf | src/components/pages/jobs/CreateNewJob.tsx:105-107 | `http://` or `https://`, a non-empty one-line name, a dot and jpg, jpeg, png or webp make a URL that passes |
| CreateNewJob.ImageUrlShape | src/components/pages/jobs/CreateNewJob.tsx:105-107 | a URL that passes has at least twelve characters, starts with `http` in any case and holds a dot |
| CreateNewJob.PublicDateEndSpec | src/components/pages/jobs/CreateNewJob.tsx:142-149 | the end date passes exactly when it parses, both dates are non-empty and the start parses to no later time. Equal non-empty dates that parse pass |
| CreateNewJob.SupportUrlOptional | src/components/pages/jobs/CreateNewJob.tsx:151-155 | the support URL may be missing or empty exactly when the apply type is '1' |
| CreateNewJob.PresetFeatureKeys | src/components/pages/jobs/CreateNewJob.tsx:276 | one `${parent_id}-${id}` key per feature of the loaded job, in order |
| CreateNewJob.SubmitFeatures | src/components/pages/jobs/CreateNewJob.tsx:346 | one number per key, `Number` of the part after the first '-', and none without keys |
| CreateNewJob.FeatureKeyRoundTrip | src/components/pages/jobs/CreateNewJob.tsx:276-346 | for non-negative ids, a key decodes to its feature's id, whether or not the parent is null |
| CreateNewJob.PresetFeaturesRoundTrip | src/components/pages/jobs/CreateNewJob.tsx:276-346 | loading a job's features and submitting them sends back their ids, in order |
| CreateNewJob.SetSlot | src/components/pages/jobs/CreateNewJob.tsx:254 | assigning a JavaScript array element: the slot takes the body, every other slot keeps its content, and an index past the end grows the array with holes |
| CreateNewJob.PresetSlotsAt | src/components/pages/jobs/CreateNewJob.tsx:251-257 | slot k holds the body of the last written criterion with display order k + 1, or keeps its content, or is a hole. The array ends at the highest written display order. Criteria filled from the employer with an empty body are not written |
| CreateNewJob.PresetCriteria | src/components/pages/jobs/CreateNewJob.tsx:251-257 | the job's criteria are sorted in place by display order and stay a permutation, and the slots are written as above |
| CreateNewJob.FilledSlotsAt | src/components/pages/jobs/CreateNewJob.tsx:236-248 | slot k takes the employer's value of catalog criterion k when that criterion is filled from the employer and the value is non-empty. Other slots keep their content or are holes |
| CreateNewJob.FillFromEmployer | src/components/pages/jobs/CreateNewJob.tsx:238-243 | the `forEach` loop leaves exactly those slots |
| CreateNewJob.FilledCount | src/components/pages/jobs/CreateNewJob.tsx:347-350 | there are no more filled slots than slots |
| CreateNewJob.RcDataSpec | src/components/pages/jobs/CreateNewJob.tsx:347-369 | the criteria data can be built exactly when every filled slot has a catalog criterion at its position. It then has one entry per filled slot, in order, pairing that criterion's id with the body |
| CreateNewJob.Nums | src/components/pages/jobs/CreateNewJob.tsx:346 | one JSON number per number, in order |
| CreateNewJob.StaffInfos | src/components/pages/jobs/CreateNewJob.tsx:359-367 | one seven-field object per staff row, in order, with the first name and `order_by` k + 1 |
| CreateNewJob.PublicStatusOption | src/components/pages/jobs/CreateNewJob.tsx:374 | a draft is sent as 2, the status option "非公開（下書き）", and a publication as 1, the option "公開" |
| CreateNewJob.SubmitParamsSpec | src/components/pages/jobs/CreateNewJob.tsx:345-379 | the parameters are built exactly when the criteria data can be built and both dates convert. There are fourteen fields, with the features decoded and the status chosen by the draft flag |
| CreateNewJob.CompanyUploads | src/components/pages/jobs/CreateNewJob.tsx:377 | one upload per company image row |
| CreateNewJob.StaffUploads | src/components/pages/jobs/CreateNewJob.tsx:378 | one upload per staff row |
| CreateNewJob.SubmitJob | src/components/pages/jobs/CreateNewJob.tsx:345-388 | a request is sent exactly when the parameters can be built. It updates the loaded job (PUT) exactly when there is one, and creates a job otherwise |
| CreateNewJob.OnClickPublish | src/components/pages/jobs/CreateNewJob.tsx:390-394 | `handleSubmit(onSubmit)`: nothing is sent unless the whole schema passes; then the form is submitted as public |
| CreateNewJob.OnClickSaveDraft | src/components/pages/jobs/CreateNewJob.tsx:340-343 | the draft is submitted with status 2 without running the schema |
| CreateNewJob.PresetForm | src/components/pages/jobs/CreateNewJob.tsx:250-292 | the criteria are sorted in place (a permutation) and written into the slots, and the form takes the loaded job's values |
| CreateNewJob.PresetSubmitRoundTrip | src/components/pages/jobs/CreateNewJob.tsx:250-379 | loading a job and submitting it unchanged sends back its employer, its template and its feature ids |
| CreateNewJob.PresetSubmitCompanyImage | src/components/pages/jobs/CreateNewJob.tsx:259-377 | a loaded company image whose last stored name is a plain file name is uploaded back as that name |
| ApplicationMng.PrefectureValuesRead | src/app/mypage/application_mng/page.tsx:150-153 | the prefecture options are the placeholder and 47 prefectures, and each option's value reads as its position under `Number` |
| ApplicationMng.PrefectureLabelSpec | src/app/mypage/application_mng/page.tsx:150-153 | ids 1 to 47 give their prefecture's name, 0 the placeholder's label (`Number('')` is 0), and any other id "" |
| ApplicationMng.FilterApplications | src/app/mypage/application_mng/page.tsx:78-105 | the two filters in a row keep the job type's applications, then those matching the search term |
| ApplicationMng.FilteredSpec | src/app/mypage/application_mng/page.tsx:78-105 | the list shown keeps the loaded order and holds exactly the applications of the chosen template (any for '0') that match the search. A blank term matches all; otherwise the lower-cased term occurs in one of the seven lower-cased fields |
| ApplicationMng.ApplicationList.constructor | src/app/mypage/application_mng/page.tsx:19-29 | page 1 of 1, limit 10, empty search, job type '0', the URL not yet read, nothing loaded or pushed |
| ApplicationMng.ApplicationList.ReadUrl | src/app/mypage/application_mng/page.tsx:34-42 | the job type is the URL's, or '0' when missing or empty. The search term and the input box take the URL's term or "", and the URL counts as read. The page is not read and stays as it was |
| ApplicationMng.ApplicationList.Params | src/app/mypage/application_mng/page.tsx:44-63 | no query runs without a profile. Otherwise it sends limit, page and search term, and the job type exactly when it is '1' or '2'. A job seeker is filtered by their id, an employer by theirs, and never both |
| ApplicationMng.ApplicationList.OnResponse | src/app/mypage/application_mng/page.tsx:68-75 | a response replaces the loaded applications and the page count, and no response changes nothing |
| ApplicationMng.ApplicationList.UpdateApplications | src/app/mypage/application_mng/page.tsx:78-105 | the list shown becomes the filtered loaded applications, and nothing else changes |
| ApplicationMng.ApplicationList.MountCommit | src/app/mypage/application_mng/page.tsx:34-119 | on mount both URL effects run in one commit: the flag is set before the read state applies, so the query pushed is the state from before the read (from the initial state: page 1, limit 10, an empty term, no job type), and then the job type and term take the URL's values |
| ApplicationMng.ApplicationList.WriteUrl | src/app/mypage/application_mng/page.tsx:107-119 | before the URL is read nothing is pushed. Afterwards one query is pushed with page, limit, search term and the job type only when it is '1' or '2' |
| ApplicationMng.UrlRoundTrip | src/app/mypage/application_mng/page.tsx:34-119 | reading a pushed URL back gives the search term. The job type comes back when it was '1' or '2'; any other reads as '0'. The URL holds the page's text, but ApplicationList.ReadUrl leaves the page unchanged, so after a reload the page is the initial 1, not the URL's |
| ApplicationMng.ApplicationList.OnPageChange | src/app/mypage/application_mng/page.tsx:121-123 | only the page changes |
| ApplicationMng.ApplicationList.OnChangeSearchTerm | src/app/mypage/application_mng/page.tsx:125-127 | only the input box changes |
| ApplicationMng.ApplicationList.OnConfirmSearchTerm | src/app/mypage/application_mng/page.tsx:129-132 | the typed term becomes the search term and the page goes back to 1 |
| ApplicationMng.ApplicationList.OnKeyDown | src/app/mypage/application_mng/page.tsx:134-138 | Enter commits the typed term and keeps the page. Any other key changes nothing |
| ApplicationMng.ApplicationList.OnSelectJobType | src/app/mypage/application_mng/page.tsx:155-158 | the chosen job type is kept and the page goes back to 1 |
| RegisterJobSeeker.NameSpec | src/components/modal/RegisterForJobSeeker.tsx:36-38 | with the pattern its comment describes, a name is valid exactly when it has at least one character and each is a CJK ideograph (U+4E00 to U+9FAF) or from the katakana block (U+30A0 to U+30FF) |
| RegisterJobSeeker.NameAsWrittenSpec | src/components/modal/RegisterForJobSeeker.tsx:36-38 | with the pattern as written, a name is valid exactly when it has at least one character and each is a CJK ideograph, U+30A0, the en dash U+2013 or U+30FF |
| RegisterJobSeeker.NameKanaSpec | src/components/modal/RegisterForJobSeeker.tsx:39-41 | a reading is valid exactly when it has at least one character and each is a katakana ァ to ヶ, 'ー' or the full-width space |
| RegisterJobSeeker.NameAsWrittenRejectsKatakana | src/components/modal/RegisterForJobSeeker.tsx:37 | the pattern as written rejects the katakana name "カナ", which the intended pattern accepts |
| RegisterJobSeeker.NameAsWrittenAcceptsEnDash | src/components/modal/RegisterForJobSeeker.tsx:37 | the pattern as written accepts a lone en dash, which the intended pattern rejects |
| RegisterJobSeeker.InitialFormNeedsInput | src/components/modal/RegisterForJobSeeker.tsx:35-84 | the default sex '1' already passes, but the untouched form fails the schema |
| RegisterJobSeeker.BirthdateRoundTrip | src/components/modal/RegisterForJobSeeker.tsx:116 | for a month and day below 100, the birthdate text has two-digit month and day parts and reads back as the chosen year, month and day |
| RegisterJobSeeker.Submit | src/components/modal/RegisterForJobSeeker.tsx:35-124 | `handleSubmit(onSubmit)` sends a payload exactly when the whole schema, with the name pattern as written, passes |
| RegisterJobSeeker.SubmitRejectsKatakanaName | src/components/modal/RegisterForJobSeeker.tsx:37 | a form whose name is the katakana "カナ" is never sent, whatever the other fields hold |
| RegisterJobSeeker.SubmitSpec | src/components/modal/RegisterForJobSeeker.tsx:112-124 | the payload carries the typed fields unchanged, with the postcode as `zip` and the phone as `tel`. Sex and prefecture are read as numbers, the birthdate reads back as the chosen date, and the confirmations are not sent |
| FormRules.PostCodeSpec | src/components/modal/RegisterForJobSeeker.tsx:46-48 | a postcode is valid exactly when it is three ASCII digits, a hyphen and four ASCII digits |
| FormRules.PhoneSpec | src/components/modal/RegisterForJobSeeker.tsx:50-52 | a phone number is valid exactly when it is a 0 followed by nine or ten more ASCII digits |
| FormRules.PasswordSpec | src/components/modal/RegisterForJobSeeker.tsx:59-65 | a password is valid exactly when it has at least eight UTF-16 units, an uppercase and a lowercase ASCII letter, a digit and one of `@$!%*?&#` |
| RegisterEmployer.EmployeeCountSpec | src/components/modal/RegisterForEmployer.tsx:49-54 | a missing or cleared employee count is absent and passes. Anything typed passes exactly when it reads as a number above 0 |
| RegisterEmployer.Submit | src/components/modal/RegisterForEmployer.tsx:36-135 | `handleSubmit(onSubmit)` sends a payload exactly when the whole schema passes |
| RegisterEmployer.SubmitSpec | src/components/modal/RegisterForEmployer.tsx:119-135 | the establishment date text reads back as the three parts entered, with absent parts left out. The city is the capital's text, which reads back as the capital, or "undefined" without one. The name, company and address travel as clinic name, kana name and closest station, and an employee count sent is above 0 |
| RegisterEmployer.DaySelectSpec | src/components/modal/RegisterForEmployer.tsx:351-378 | the day select appears only with the month select. For a chosen year and a month from 1 to 12, it has as many entries as the month has days: the placeholder, then the values 2 up to the last day, so day 1 is never offered |
| RegisterEmployer.DaySelectFallback | src/components/modal/RegisterForEmployer.tsx:378 | without a year or a month, the 2025 and 1 fallbacks give 31 entries: the placeholder, then "2" up to "31" |
| RegisterEmployer.DaySelectIntendedAddsDayOne | src/components/modal/RegisterForEmployer.tsx:378 | the select with the intended day list is the shown one with a "1" entry put back after the placeholder |
| AddCriteriaModal.CreateAccepts | src/components/modal/AddCriteriaModal.tsx:9-113 | a new criterion is passed on exactly when it has a name and an integer display order above the number of existing criteria. The create default, count + 1, meets the display-order rule |
| AddCriteriaModal.CriteriaModal.constructor | src/components/modal/AddCriteriaModal.tsx:51-72 | the form is created with blank names and the next free position, and then shows the edited criterion (a missing calling name as "") or those defaults |
| AddCriteriaModal.CriteriaModal.LoadValues | src/components/modal/AddCriteriaModal.tsx:62-72 | the loading effect shows the edited criterion or the create defaults, and nothing else changes |
| AddCriteriaModal.CriteriaModal.ValidateDisplayOrder | src/components/modal/AddCriteriaModal.tsx:90-99 | a value passes exactly when it is above the count. Otherwise the error names the first free position |
| AddCriteriaModal.CriteriaModal.Submit | src/components/modal/AddCriteriaModal.tsx:108-113 | the values are passed on exactly when the mode's schema passes, and, for a new criterion, the display order is free. The display-order error is set exactly for a new criterion that passes the schema but not that rule; every other submit clears an earlier one, as the resolver's errors replace the old ones |
| AddCriteriaModal.CriteriaModal.HandleClose | src/components/modal/AddCriteriaModal.tsx:103-106 | the form goes back to its creation defaults, the error is cleared, and the close is reported once |
| AddCriteriaModal.CriteriaModal.SubmitKeepsOrder | src/components/modal/AddCriteriaModal.tsx:108-113 | in create mode, every criterion passed on keeps a name and a display order above the count |
| AddEditFeature.TypeInputSpec | src/components/modal/AddEditFeature.tsx:89-94 | typing either sets a type from 1 to 3 that the text reads as under `parseInt`, or keeps the old type. A type in range stays in range, and "1", "2" and "3" each select themselves |
| AddEditFeature.SelectRoundTrip | src/components/modal/AddEditFeature.tsx:121-122 | choosing the text the parent select displays gives back the parent it holds. The text is empty exactly when there is no parent |
| AddEditFeature.SelectOptionRoundTrip | src/components/modal/AddEditFeature.tsx:121-122 | choosing the option of a non-negative id displays that option's text |
| AddEditFeature.LoadedValid | src/components/modal/AddEditFeature.tsx:18-64 | loaded values pass the schema exactly when a feature is edited that has a name and a type from 1 to 3. A new feature starts blank, and the loaded type equals the default type |
| AddEditFeature.FeatureModal.constructor | src/components/modal/AddEditFeature.tsx:43-64 | the defaults are blank, with no parent and the edited type or 3, and the form then shows the loaded values |
| AddEditFeature.FeatureModal.LoadValues | src/components/modal/AddEditFeature.tsx:52-64 | the edited feature's name, parent (`parent_id \|\| null`) and type, or the create values |
| AddEditFeature.FeatureModal.OnTypeInput | src/components/modal/AddEditFeature.tsx:89-94 | only the type changes, as `handleTypeChange` decides |
| AddEditFeature.FeatureModal.OnParentSelect | src/components/modal/AddEditFeature.tsx:122 | only the parent changes: an empty choice gives no parent, any other choice the number it reads as |
| AddEditFeature.FeatureModal.OnNameInput | src/components/modal/AddEditFeature.tsx:167-178 | only the name changes |
| AddEditFeature.FeatureModal.Submit | src/components/modal/AddEditFeature.tsx:106 | the values are passed on exactly when the schema passes |
| AddEditFeature.FeatureModal.HandleClose | src/components/modal/AddEditFeature.tsx:84-87 | the form goes back to its defaults and the close is reported once |
| AddEditFeature.FeatureModal.InputsKeepRange | src/components/modal/AddEditFeature.tsx:89-106 | the type stays from 1 to 3 through typing, and everything passed on stays valid through a submit |
| ApplicationCard.HeaderBgClass | src/components/ApplicationCard.tsx:45 | the header is blue exactly for template 1, and orange for every other template |
| ApplicationCard.SexLabels | src/components/ApplicationCard.tsx:47-49 | the label is 男性 exactly for 1 and 女性 exactly for 2. Every other code gets その他, and a missing sex is shown as 0 would be |
| ApplicationCard.SectionsByRole | src/components/ApplicationCard.tsx:88-134 | the company section appears exactly for a job seeker and for an admin viewing a named applicant. The applicant section appears exactly for an admin or an employer when the applicant has a name. There are at most two sections |
| ApplicationCard.SectionContents | src/components/ApplicationCard.tsx:88-134 | the company section shows the card's name, zip, prefecture followed by city, and tel. The applicant section shows the applicant's name, the formatted birthdate and the sex label |
| Sidebar.MenusWellFormed | src/components/Sidebar.tsx:16-48 | every role's menu ends with the logout entry, and no path repeats within a menu, as the list keys need |
| Sidebar.MenuItemsSpec | src/components/Sidebar.tsx:83-89 | a menu is shown exactly when the sidebar is mounted and the lower-cased role is in the table. Its letter case does not matter, and a shown menu ends with logout and repeats no path |
| Sidebar.RoleMenus | src/components/Sidebar.tsx:83-89 | the roles JobSeeker, Employer, admin and subadmin select their own menus |
| Sidebar.RenderedSpec | src/components/Sidebar.tsx:92-95 | the sidebar renders exactly when it is mounted and signed in, with a role whose lower-cased form is in the table |
| Sidebar.HighlightUnique | src/components/Sidebar.tsx:168-189 | in a shown menu at most one entry is highlighted for a page, and the logout entry never is |
| Sidebar.SidebarState.constructor | src/components/Sidebar.tsx:59-61 | not mounted, not mobile, no dialog, the parent's open flag, and nothing navigated or logged out |
| Sidebar.SidebarState.Mount | src/components/Sidebar.tsx:66-80 | mounted, with the mobile flag set exactly when the width is below 768 |
| Sidebar.SidebarState.Resize | src/components/Sidebar.tsx:69-72 | only the mobile flag changes, set from the new width |
| Sidebar.SidebarState.GoNavigation | src/components/Sidebar.tsx:97-100 | the URL is navigated to, and the sidebar closes on mobile only |
| Sidebar.SidebarState.ClickItem | src/components/Sidebar.tsx:170-188 | the logout entry opens the confirmation dialog without navigating. Any other entry navigates to its path |
| Sidebar.SidebarState.ConfirmLogout | src/components/Sidebar.tsx:106-109 | one logout, and the sidebar closes on mobile only |
| Sidebar.SidebarState.CancelLogout | src/components/Sidebar.tsx:210 | the dialog closes and nothing else changes |
| Sidebar.SidebarState.Toggle | src/components/Sidebar.tsx:130 | the open flag flips |
| Sidebar.SidebarState.ClickOverlay | src/components/Sidebar.tsx:114-117 | the overlay closes the sidebar |
| Sidebar.SidebarState.ClickOnDesktop | src/components/Sidebar.tsx:168-189 | on a desktop width any entry leaves the sidebar open. The last entry asks about logging out, and every other entry navigates to its path |
| UseAuth.Get | src/hooks/useAuth.tsx:52-53 | `getItem` finds a value exactly when the key is stored |
| UseAuth.AuthState.constructor | src/hooks/useAuth.tsx:38-45 | the token is read from storage, with no profile yet and a clean form |
| UseAuth.AuthState.Mount | src/hooks/useAuth.tsx:49-68 | the token is read again, and a missing or empty one sends the user to '/'. A stored profile replaces the current one with its parse (none when invalid); without one the current profile stays |
| UseAuth.AuthState.OnStorage | src/hooks/useAuth.tsx:70-86 | an event for the token copies its new value. One for the profile parses its new value (none when absent, empty or invalid). Other keys change nothing |
| UseAuth.AuthState.SaveCredentials | src/hooks/useAuth.tsx:93-98 | both keys are stored, the profile encoded, and both values are taken into the state |
| UseAuth.AuthState.SaveFormStatus | src/hooks/useAuth.tsx:100-102 | only the dirty flag changes |
| UseAuth.AuthState.Logout | src/hooks/useAuth.tsx:105-112 | both keys are removed, the Authorization header dropped, token and profile cleared, and '/' pushed |
| UseAuth.AuthState.SaveThenReload | src/hooks/useAuth.tsx:49-118 | after saving a non-empty token and a profile whose encoding parses back, a new mount restores both without redirecting. The user is then authenticated, and an admin exactly for the roles admin and subadmin |
| UseAuth.AuthState.LogoutThenReload | src/hooks/useAuth.tsx:49-118 | after a logout, a new mount finds no token and redirects again. The user stays signed out, and not an admin |

## Left out

- Markup, styling and the purely presentational components are not modelled. A rendered view is a value naming what is shown.
- The HTTP transport is not modelled: axios, its interceptors and the react-query hooks with their caching and loading flags. A request is recorded as a value (verb, path, body), and a response is a parameter.
- The code has no guard that keeps only the latest response, and the model adds none. A response that arrives late overwrites newer state in the model too.
- The date library and `Date` are not modelled; parsing, comparing and reformatting dates are parameters. `parsePublicDate` (`src/utils/helper.ts:79-86`), `formatDateTime` (`src/app/mypage/application_mng/page.tsx:140-148`) and `formatBirthdate` (`src/components/ApplicationCard.tsx:51-61`) are not modelled. The current year used by the year options is a parameter.
- Percent-encoding of URLs is not modelled: a query is a list of name/value pairs.
- Numbers are integers or NaN. Fractions, exponents, hexadecimal and Infinity are outside the model of `Number()`, `parseInt` and `String()`.
- Text.ToLower: lower-cases ASCII and full-width Latin capitals and the Kelvin sign only. Other Unicode case mappings of `toLowerCase` are not modelled, so the case-insensitive application search is exact only for Latin letters.
- Strings are sequences of Unicode scalar values. UTF-16 code units appear only in the password length, and the lone surrogates that `JSON.stringify` escapes cannot occur.
- The validation library's `email()` and `url()` checks and its number coercion are parameters (`isEmail`, `isUrl`, `toNumber`). The resolver, `trigger` and `watch` plumbing of the form library is not modelled.
- A text field never filled in is the empty string, since `required()` treats a missing string and "" alike. The job seeker's date-of-birth fields arrive already cast to numbers.
- The click-outside listeners of the two modals (`AddCriteriaModal.tsx:74-88`, `AddEditFeature.tsx:66-80`) are not modelled, nor are their titles and button texts. `if (!isOpen) return null` appears as `requires isOpen` on the handlers of the feature modal.
- CreateNewJob: the company-options effect, image previews through `FileReader` and the `hasPreloaded` ref are not modelled. The thumbnail sent is the value of the watched field, passed in as a parameter.
- CreateNewJob.FillFromEmployer: the employer's record is a map from names to strings; a truthy value of another type is not modelled.
- CreateNewJob.FeatureKeyRoundTrip: proved only for non-negative ids and parents; a negative id puts a second '-' into the key. The same restriction applies to CreateNewJob.PresetFeaturesRoundTrip and Features.FeatureKeyPieces.
- Features: the sections record is a map, so the order in which `Object.values` renders the sections is not modelled.
- Sorting.SortBy: the contract states sorted and a permutation. It does not state stability, which `Array.prototype.sort` guarantees.
- Sidebar: navigation goes through a prompt about unsaved changes that is not modelled; the URLs handed to `navigate` are recorded instead.
- UseAuth: the JSON codec is a pair of parameters. A storage event carries the other tab's change, but this tab's copy of the storage is not updated by it. The server-side guard `typeof window === 'undefined'` is not modelled.
- React's render timing is modelled only where it changes what is pushed: `MountCommit` of JobOpenings.JobList and ApplicationMng.ApplicationList covers the mount commit. ReadUrl and the other effect methods give the state after their updates apply, and the caller runs them in the order React would.
- JobOpenings.PageOf: the page read from the URL is `Number(page) || 1`. A negative page is kept, not clamped to 1 as a description of the page suggests, and the model follows the code.
- The admin screens for jobs, features and criteria, the login and tab-switching modals, pagination, `src/utils/config.ts` and `useUnsavedChangesWarning` are not part of this model. They render, call mutations or join strings.

## Findings

| source | as written | input that shows it | evidently intended | confidence | as-written member | corrected member |
|---|---|---|---|---|---|---|
| src/utils/helper.ts:27-39 | the day list puts the placeholder in slot 0 and labels slot i (i ≥ 1) with day i + 1, so day 1 is never offered | year 2024, month 1: the values are "0", "2" … "31", with no "1" | the placeholder, then every day 1 … last day of the month | not executed | Helper.EstablishmentDateOptionsJanuary | Helper.DayOptionsOfferEveryDay |
| src/components/modal/RegisterForJobSeeker.tsx:37 | the class `[一-龯゠–ヿ]` has an en dash (U+2013) where a range hyphen belongs, so it holds the CJK ideographs, U+30A0, U+2013 and U+30FF, and no katakana | the name "カナ" is rejected; the name "–" is accepted | CJK ideographs and the whole katakana block U+30A0 to U+30FF, as the comment beside it says | not executed | RegisterJobSeeker.NameAsWrittenRejectsKatakana | RegisterJobSeeker.NameSpec |

The screens follow the code as written: RegisterEmployer's day select offers the as-written list, and RegisterJobSeeker's schema checks the name with the as-written class. The corrected members stand beside them, and RegisterEmployer.DaySelectIntendedAddsDayOne and Helper.DayOptionsInsertDayOne relate the two day lists.
