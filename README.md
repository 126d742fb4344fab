# Plant Monitoring — a verified model of the app's screen logic

Plant Monitoring is an Android app written in Kotlin with Jetpack Compose. It
lets a user log in, browse a list of plants, pick plant categories, inspect a
plant's detail page with its watering schedules, and create a custom plant.
This project models the logic behind those screens in Dafny:

- **Navigation** (`navigation.dfy`): the route table and the placeholder
  substitution that builds concrete routes. Also the text encoding of a
  watering-schedule list, which travels inside the plant-detail route, and its
  decoder. Also the defaults used when a route argument is missing.
- **Schedules** (`schedules.dfy`): the watering-schedule list that both the
  detail screen and the custom-plant form keep. It supports append,
  edit-first-equal-entry and delete-at-index. The module also holds the add/edit
  dialog, with its defaults `08:00` and `1.8`, and the row layout with dividers
  and an empty state.
- **Number field** (`number_input.dfy`): the rule that accepts a keystroke only
  if the new text is empty or an integer within the field's range.
- **Custom-plant form** (`add_custom_plant.dfy`): the coupled temperature and
  humidity range sliders, the growth-duration field and the save guard.
- **Plant detail** (`plant_detail.dfy`): the growth-progress fraction and the
  planting-season bar chart.
- **Plant list** (`plant_list.dfy`): case-insensitive search combined with the
  type chips.
- **Plant categories** (`plant_category.dfy`): the layout of category cards,
  plus an "Add Custom" card, four per page. Also the dialog that adds a category.
- **Login** (`login.dfy`): the idle/loading state of the login button.
- **Kotlin string functions** (`strings.dfy`): `isBlank`, ASCII
  `lowercase`/`contains(ignoreCase)`, `split`, `joinToString`,
  `String.replace` (all occurrences, left to right), `toString` and
  `toIntOrNull`.
- **Records** (`entities.dfy`): `WateringSchedule`, `ScheduledTask` and `PlantItem`.

Values that never change become datatypes and functions. Each screen's
`remember`ed state becomes a class whose methods are the event handlers. A loop
in the source becomes a method with loop invariants, specified by a function.

Source paths below are relative to the repository root.

## Model

| member | source | states |
|---|---|---|
| Strings.NotBlankWhenVisible | app/src/main/java/com/example/plantmonitoring_v2/screens/AddCustomPlantScreen.kt:166 | A string holding one non-whitespace character is not blank (`isNotBlank`) |
| Strings.IsBlank | app/src/main/java/com/example/plantmonitoring_v2/screens/AddCustomPlantScreen.kt:166 | `isBlank` holds of the empty string, and of a non-empty string exactly when its first character is white space and the rest is blank |
| Strings.Lower | app/src/main/java/com/example/plantmonitoring_v2/screens/PlantListScreen.kt:55-56 | Lower-casing keeps the length and maps every character through the ASCII case map |
| Strings.ContainsIff | app/src/main/java/com/example/plantmonitoring_v2/screens/PlantListScreen.kt:55-56 | `contains` holds exactly when the needle occurs at some index of the haystack |
| Strings.ContainsIgnoreCase | app/src/main/java/com/example/plantmonitoring_v2/screens/PlantListScreen.kt:55-56 | An exact match is also a match when case is ignored |
| Strings.ContainsLower | app/src/main/java/com/example/plantmonitoring_v2/screens/PlantListScreen.kt:55-56 | An occurrence stays an occurrence after both strings are lower-cased |
| Strings.Join | app/src/main/java/com/example/plantmonitoring_v2/navigation/AppNavigation.kt:126 | A single piece joins to itself, and the joined text starts with the first piece |
| Strings.Contains | app/src/main/java/com/example/plantmonitoring_v2/screens/PlantListScreen.kt:55-56 | Every string contains the empty string; a string contains nothing longer than itself |
| Strings.Split | app/src/main/java/com/example/plantmonitoring_v2/navigation/AppNavigation.kt:155-156 | `split` returns at least one piece; no piece holds the delimiter; joining the pieces with the delimiter gives the input back |
| Strings.SplitCount | app/src/main/java/com/example/plantmonitoring_v2/navigation/AppNavigation.kt:155-157 | `split` returns one more piece than the delimiter occurs |
| Strings.SplitWithoutDelimiter | app/src/main/java/com/example/plantmonitoring_v2/navigation/AppNavigation.kt:155-156 | Splitting text with no delimiter gives that text as the only piece |
| Strings.SplitAfterPiece | app/src/main/java/com/example/plantmonitoring_v2/navigation/AppNavigation.kt:155-156 | A delimiter-free piece followed by the delimiter splits off as the first piece |
| Strings.SplitJoin | app/src/main/java/com/example/plantmonitoring_v2/navigation/AppNavigation.kt:126 | Splitting a `joinToString` of delimiter-free pieces gives the pieces back |
| Strings.SplitConcat | app/src/main/java/com/example/plantmonitoring_v2/navigation/AppNavigation.kt:155 | Splitting text around one delimiter gives the pieces of the left side followed by the pieces of the right side |
| Strings.OccurrencesConcat | app/src/main/java/com/example/plantmonitoring_v2/navigation/AppNavigation.kt:126 | Delimiter counts add up over concatenation |
| Strings.OccurrencesPositive | app/src/main/java/com/example/plantmonitoring_v2/navigation/AppNavigation.kt:156-157 | A character that is present is counted at least once |
| Strings.ReplaceAll | app/src/main/java/com/example/plantmonitoring_v2/navigation/AppNavigation.kt:88 | `replace` changes nothing when the pattern's first character is absent, or when a pattern is replaced by itself |
| Strings.ReplaceSkips | app/src/main/java/com/example/plantmonitoring_v2/navigation/AppNavigation.kt:88 | `replace` leaves a prefix alone when the pattern's first character is absent from it |
| Strings.ReplaceHits | app/src/main/java/com/example/plantmonitoring_v2/navigation/AppNavigation.kt:88 | `replace` substitutes an occurrence of the pattern at the front and carries on after it |
| Strings.ReplaceSkipsOtherPlaceholder | app/src/main/java/com/example/plantmonitoring_v2/navigation/AppNavigation.kt:110-114 | Replacing one `{name}` placeholder leaves a different placeholder untouched |
| Strings.IntToDecimal | app/src/main/java/com/example/plantmonitoring_v2/navigation/AppNavigation.kt:131 | `Int.toString` is canonical: a minus sign exactly for negatives, never a plus sign, then digits with no leading zero except for 0 itself; it holds no `{` |
| Strings.ParseInt | app/src/main/java/com/example/plantmonitoring_v2/screens/AddCustomPlantScreen.kt:66-67 | `toIntOrNull` succeeds only on an optional sign followed by one or more digits, and only within the 32-bit range |
| Strings.ParseIntOfDecimal | app/src/main/java/com/example/plantmonitoring_v2/screens/AddCustomPlantScreen.kt:663-665 | `toIntOrNull` of `toString` of a 32-bit integer gives that integer back |
| Strings.ParseRejects | app/src/main/java/com/example/plantmonitoring_v2/screens/AddCustomPlantScreen.kt:66 | A character that is neither a digit nor a leading sign makes `toIntOrNull` fail |
| Navigation.Screen.Route | app/src/main/java/com/example/plantmonitoring_v2/navigation/AppNavigation.kt:22-32 | Exactly the detail, category-list and preset routes hold a `{` placeholder |
| Navigation.EncodedEntries | app/src/main/java/com/example/plantmonitoring_v2/navigation/AppNavigation.kt:126 | The encoded entries are `time,amount` for each schedule, in list order |
| Navigation.EncodeSchedules | app/src/main/java/com/example/plantmonitoring_v2/navigation/AppNavigation.kt:126 | Only the empty list encodes to the empty string; the encoding starts with the first entry, and a single entry encodes to itself |
| Navigation.DecodeSegment | app/src/main/java/com/example/plantmonitoring_v2/navigation/AppNavigation.kt:156-161 | A segment with exactly one comma decodes to the schedule whose encoding it is; any other segment decodes to a schedule with two empty fields |
| Navigation.NonEmptyPieces | app/src/main/java/com/example/plantmonitoring_v2/navigation/AppNavigation.kt:155 | `filter { isNotEmpty }` keeps exactly the non-empty pieces: a single piece survives exactly when it is non-empty |
| Navigation.NonEmptyPiecesKeepsAll | app/src/main/java/com/example/plantmonitoring_v2/navigation/AppNavigation.kt:155 | A list without empty strings passes the filter whole |
| Navigation.NonEmptyPiecesConcat | app/src/main/java/com/example/plantmonitoring_v2/navigation/AppNavigation.kt:155 | The filter works piece by piece: filtering two lists joined is joining the two filtered lists |
| Navigation.DecodeSchedules | app/src/main/java/com/example/plantmonitoring_v2/navigation/AppNavigation.kt:155-162 | The decoder yields one schedule per non-empty segment between vertical bars, the decoding of that segment, in order; at most one more than the bars; no decoded field holds a comma |
| Navigation.DecodeConcat | app/src/main/java/com/example/plantmonitoring_v2/navigation/AppNavigation.kt:155-162 | The text on either side of a vertical bar decodes independently, and the results are concatenated |
| Navigation.MapOverConcat | app/src/main/java/com/example/plantmonitoring_v2/navigation/AppNavigation.kt:155 | Mapping a function over two halves gives the two halves of mapping it over the whole |
| Navigation.DecodeEncodeEntry | app/src/main/java/com/example/plantmonitoring_v2/navigation/AppNavigation.kt:126-162 | A comma-free schedule decodes back from its `time,amount` encoding |
| Navigation.SegmentsOfEncoding | app/src/main/java/com/example/plantmonitoring_v2/navigation/AppNavigation.kt:126-155 | Splitting a non-empty encoding at its vertical bars gives the encoded entries in order |
| Navigation.DecodeEncode | app/src/main/java/com/example/plantmonitoring_v2/navigation/AppNavigation.kt:126-162 | Round trip: decoding the encoding of a separator-free schedule list gives the list back, the empty list included |
| Navigation.EmptyCodec | app/src/main/java/com/example/plantmonitoring_v2/navigation/AppNavigation.kt:126-162 | The empty list encodes to `""` and `""` decodes to the empty list |
| Navigation.CommaInFieldIsLost | app/src/main/java/com/example/plantmonitoring_v2/navigation/AppNavigation.kt:126-161 | A schedule with a comma in a field comes back as a schedule with two empty fields |
| Navigation.CategoryRoute | app/src/main/java/com/example/plantmonitoring_v2/navigation/AppNavigation.kt:88 | The category route is `plant_category_list/` followed by the category name, for every name |
| Navigation.FillCategoryRoute | app/src/main/java/com/example/plantmonitoring_v2/navigation/AppNavigation.kt:29 | Filling `{categoryName}` in the category-list template gives prefix plus name |
| Navigation.PresetRoute | app/src/main/java/com/example/plantmonitoring_v2/navigation/AppNavigation.kt:110-114 | The preset route always starts with `plant_preference_preset/`, whatever the plant's fields hold |
| Navigation.KeepsPrefix | app/src/main/java/com/example/plantmonitoring_v2/navigation/AppNavigation.kt:110-114 | Replacing a placeholder leaves a brace-free start of the text in place |
| Navigation.PresetRouteShape | app/src/main/java/com/example/plantmonitoring_v2/navigation/AppNavigation.kt:109-115 | With no `{` in the plant's fields, the preset route is the prefix then name, species, status and water amount, separated by `/` |
| Navigation.FillFourSlots | app/src/main/java/com/example/plantmonitoring_v2/navigation/AppNavigation.kt:111-114 | Four chained `replace` calls fill four distinct placeholders with their values in place |
| Navigation.DetailRoute | app/src/main/java/com/example/plantmonitoring_v2/navigation/AppNavigation.kt:128-133 | The detail route always starts with `plant_detail/`, whatever the task holds |
| Navigation.DetailRouteShape | app/src/main/java/com/example/plantmonitoring_v2/navigation/AppNavigation.kt:126-134 | With no `{` in the task's text, the detail route is the prefix then name, id, days, water per day and the encoded schedules, separated by `/` |
| Navigation.FillFiveSlots | app/src/main/java/com/example/plantmonitoring_v2/navigation/AppNavigation.kt:128-133 | Five chained `replace` calls fill five distinct placeholders with their values in place |
| Navigation.EncodingHasNoBrace | app/src/main/java/com/example/plantmonitoring_v2/navigation/AppNavigation.kt:126 | An encoding whose fields hold no `{` holds no `{` |
| Navigation.StringArgOrEmpty | app/src/main/java/com/example/plantmonitoring_v2/navigation/AppNavigation.kt:149-153 | `getString(key) ?: ""` gives the stored string when present, else the empty string |
| Navigation.IntArgOrZero | app/src/main/java/com/example/plantmonitoring_v2/navigation/AppNavigation.kt:151 | `getInt(key) ?: 0` gives the stored integer when present, else 0 |
| Navigation.CategoryNameArg | app/src/main/java/com/example/plantmonitoring_v2/navigation/AppNavigation.kt:102 | The category name is the bundle's string when present, and the empty string without a bundle |
| Navigation.DetailTask | app/src/main/java/com/example/plantmonitoring_v2/navigation/AppNavigation.kt:149-170 | Without a bundle the task has empty texts, 0 days and no schedules; no decoded schedule field holds a comma |
| Navigation.PresetPlant | app/src/main/java/com/example/plantmonitoring_v2/navigation/AppNavigation.kt:189-199 | Without a bundle every field of the plant is the empty string |
| Navigation.PresetPlantRoundTrip | app/src/main/java/com/example/plantmonitoring_v2/navigation/AppNavigation.kt:110-114 | The preset destination rebuilds exactly the plant the category list sent, from the bundle the router is assumed to deliver |
| Navigation.DetailArgsLookups | app/src/main/java/com/example/plantmonitoring_v2/navigation/AppNavigation.kt:149-153 | Each field the detail destination reads from the bundle built for a task is that task's field, the schedules in their encoding |
| Navigation.DetailTaskRoundTrip | app/src/main/java/com/example/plantmonitoring_v2/navigation/AppNavigation.kt:126-170 | From the bundle the router is assumed to deliver, the detail destination rebuilds exactly the task the field screen sent, when no schedule field holds a separator |
| NumberInput.Accepts | app/src/main/java/com/example/plantmonitoring_v2/screens/AddCustomPlantScreen.kt:66-68 | Accepted text needs an ordered range, and accepted non-empty text is an optional sign followed by at least one digit |
| NumberInput.Update | app/src/main/java/com/example/plantmonitoring_v2/screens/AddCustomPlantScreen.kt:65-71 | The field takes the new text when it is accepted and keeps the old text otherwise |
| NumberInput.AcceptsIff | app/src/main/java/com/example/plantmonitoring_v2/screens/AddCustomPlantScreen.kt:66-68 | New text is accepted exactly when it is empty with 0 in range, or parses to an integer in range |
| NumberInput.AcceptsEveryInRange | app/src/main/java/com/example/plantmonitoring_v2/screens/AddCustomPlantScreen.kt:66-69 | The decimal text of every 32-bit integer in range is accepted |
| NumberInput.UpdateKeepsHolds | app/src/main/java/com/example/plantmonitoring_v2/screens/AddCustomPlantScreen.kt:65-71 | If the field held empty-or-in-range text before a keystroke, it still does afterwards |
| NumberInput.EmptyAcceptedIff | app/src/main/java/com/example/plantmonitoring_v2/screens/AddCustomPlantScreen.kt:66-67 | Clearing the field is allowed exactly when 0 lies in range |
| NumberInput.GrowthDurationCannotBeCleared | app/src/main/java/com/example/plantmonitoring_v2/screens/AddCustomPlantScreen.kt:960-967 | The growth-duration field (1 to 365) refuses to be emptied |
| NumberInput.DecimalRejected | app/src/main/java/com/example/plantmonitoring_v2/screens/AddCustomPlantScreen.kt:1060-1067 | The schedule amount field (0 to 10) refuses any text with a decimal point, such as its own default `1.8` |
| Schedules.IndexOf | app/src/main/java/com/example/plantmonitoring_v2/screens/PlantDetailScreen.kt:1000 | `indexOf` is -1 exactly when the entry is absent; otherwise it is the first index holding the entry |
| Schedules.RemovedAt | app/src/main/java/com/example/plantmonitoring_v2/screens/PlantDetailScreen.kt:928 | `removeAt(i)` shortens the list by one, keeps the entries before `i`, shifts those after, and removes exactly one copy of the `i`-th entry |
| Schedules.EditFirst | app/src/main/java/com/example/plantmonitoring_v2/screens/PlantDetailScreen.kt:999-1005 | The edit replaces the first equal entry when there is one, leaves every other entry alone, and leaves the list unchanged otherwise |
| Schedules.DeleteUndoesAdd | app/src/main/java/com/example/plantmonitoring_v2/screens/PlantDetailScreen.kt:986-988 | Deleting the entry just appended restores the list |
| Schedules.EditBackRestores | app/src/main/java/com/example/plantmonitoring_v2/screens/PlantDetailScreen.kt:999-1005 | Editing an entry to a new value and then back restores the list |
| Schedules.EditTargetsFirstDuplicate | app/src/main/java/com/example/plantmonitoring_v2/screens/PlantDetailScreen.kt:1000-1003 | With two equal entries, editing the later one rewrites the earlier one and leaves the later one as it was |
| Schedules.ScheduleDialog.constructor | app/src/main/java/com/example/plantmonitoring_v2/screens/PlantDetailScreen.kt:1303-1310 | The dialog opens with the edited entry's fields, or `08:00` and `1.8` when adding |
| Schedules.ScheduleDialog.TypeTime | app/src/main/java/com/example/plantmonitoring_v2/screens/AddCustomPlantScreen.kt:1044 | The time field stores the text as typed |
| Schedules.ScheduleDialog.TypeAmount | app/src/main/java/com/example/plantmonitoring_v2/screens/AddCustomPlantScreen.kt:1060-1067 | The amount field stores the text as typed, or, as the form's number field, applies the 0-to-10 rule |
| Schedules.ScheduleEditor.constructor | app/src/main/java/com/example/plantmonitoring_v2/screens/PlantDetailScreen.kt:810-812 | The editor starts with the given list and both dialogs closed |
| Schedules.ScheduleEditor.OpenAdd | app/src/main/java/com/example/plantmonitoring_v2/screens/PlantDetailScreen.kt:839 | The add button opens the add dialog and changes nothing else |
| Schedules.ScheduleEditor.DismissAdd | app/src/main/java/com/example/plantmonitoring_v2/screens/PlantDetailScreen.kt:984 | Dismissing the add dialog closes it and changes nothing else |
| Schedules.ScheduleEditor.SaveAdd | app/src/main/java/com/example/plantmonitoring_v2/screens/PlantDetailScreen.kt:985-990 | Saving the add dialog appends the new entry and closes the dialog |
| Schedules.ScheduleEditor.OpenEdit | app/src/main/java/com/example/plantmonitoring_v2/screens/PlantDetailScreen.kt:914 | A row's edit button remembers that row's entry |
| Schedules.ScheduleEditor.DismissEdit | app/src/main/java/com/example/plantmonitoring_v2/screens/PlantDetailScreen.kt:998 | Dismissing the edit dialog forgets the entry and keeps the list |
| Schedules.ScheduleEditor.SaveEdit | app/src/main/java/com/example/plantmonitoring_v2/screens/PlantDetailScreen.kt:999-1007 | Saving the edit dialog applies the edit to the first equal entry and closes the dialog |
| Schedules.ScheduleEditor.Delete | app/src/main/java/com/example/plantmonitoring_v2/screens/PlantDetailScreen.kt:928 | A row's delete button removes that row's entry |
| Schedules.LayoutRows | app/src/main/java/com/example/plantmonitoring_v2/screens/PlantDetailScreen.kt:859-951 | Entry `i` is drawn at row `2i`; a divider follows every entry but the last; an empty list draws only the empty-state block |
| Schedules.EmptyStateIffEmpty | app/src/main/java/com/example/plantmonitoring_v2/screens/PlantDetailScreen.kt:942-951 | The empty-state block appears exactly when the list is empty |
| AddCustomPlant.Truncate | app/src/main/java/com/example/plantmonitoring_v2/screens/AddCustomPlantScreen.kt:663 | `Float.toInt` rounds toward zero |
| AddCustomPlant.PlantToSave | app/src/main/java/com/example/plantmonitoring_v2/screens/AddCustomPlantScreen.kt:166-173 | A plant is saved exactly when name and category are both non-blank; it carries the name, status and water amount, with an empty species |
| AddCustomPlant.SaveNeedsVisibleName | app/src/main/java/com/example/plantmonitoring_v2/screens/AddCustomPlantScreen.kt:166 | A name with a visible character is saved; a name of spaces is not |
| AddCustomPlant.CustomPlantForm.constructor | app/src/main/java/com/example/plantmonitoring_v2/screens/AddCustomPlantScreen.kt:93-125 | The form starts with its documented defaults and two schedules, and its invariant holds |
| AddCustomPlant.CustomPlantForm.TypeName | app/src/main/java/com/example/plantmonitoring_v2/screens/AddCustomPlantScreen.kt:240 | The name field stores the text as typed; every other field, the status and the water amount among them, stays as it was, and the form invariant is preserved |
| AddCustomPlant.CustomPlantForm.SelectCategory | app/src/main/java/com/example/plantmonitoring_v2/screens/AddCustomPlantScreen.kt:264-300 | Picking a drop-down item sets the category to that item; every other field, the status and the water amount among them, stays as it was, and the form invariant is preserved |
| AddCustomPlant.CustomPlantForm.SetTempMin | app/src/main/java/com/example/plantmonitoring_v2/screens/AddCustomPlantScreen.kt:527-532 | The minimum becomes the slider value; a maximum below it is pushed 5 above it; the range stays ordered; every other field, the status and the water amount among them, stays as it was, and the form invariant is preserved |
| AddCustomPlant.CustomPlantForm.SetTempMax | app/src/main/java/com/example/plantmonitoring_v2/screens/AddCustomPlantScreen.kt:570-576 | The maximum becomes the slider value; a minimum above it is pulled 5 below it; the range stays ordered; every other field, the status and the water amount among them, stays as it was, and the form invariant is preserved |
| AddCustomPlant.CustomPlantForm.SetHumidityMin | app/src/main/java/com/example/plantmonitoring_v2/screens/AddCustomPlantScreen.kt:661-668 | The minimum becomes the truncated slider value; a maximum below it is pushed 10 above it; the range stays ordered; every other field, the status and the water amount among them, stays as it was, and the form invariant is preserved |
| AddCustomPlant.CustomPlantForm.SetHumidityMax | app/src/main/java/com/example/plantmonitoring_v2/screens/AddCustomPlantScreen.kt:727-735 | The maximum becomes the truncated slider value; a minimum above it is pulled 10 below it; the range stays ordered; every other field, the status and the water amount among them, stays as it was, and the form invariant is preserved |
| AddCustomPlant.CustomPlantForm.EditGrowthDuration | app/src/main/java/com/example/plantmonitoring_v2/screens/AddCustomPlantScreen.kt:960-967 | The growth field applies the 1-to-365 rule, so it keeps holding empty or in-range text; every other field, the status and the water amount among them, stays as it was, and the form invariant is preserved |
| AddCustomPlant.CustomPlantForm.Save | app/src/main/java/com/example/plantmonitoring_v2/screens/AddCustomPlantScreen.kt:164-173 | Save hands on a plant exactly when name and category are non-blank |
| AddCustomPlant.HumidityMaxSliderKeepsMin | app/src/main/java/com/example/plantmonitoring_v2/screens/AddCustomPlantScreen.kt:730-734 | Within the maximum slider's range, which starts one above the minimum, the minimum is never pulled down |
| PlantDetail.CoerceIn | app/src/main/java/com/example/plantmonitoring_v2/screens/PlantDetailScreen.kt:186 | `coerceIn` returns a value in range, the input itself when it is in range, and the nearer bound otherwise |
| PlantDetail.GrowthProgress | app/src/main/java/com/example/plantmonitoring_v2/screens/PlantDetailScreen.kt:186 | Progress lies in [0, 1]: it is 0 up to day 0, 1 from day 70, and days/70 in between |
| PlantDetail.ProgressMonotone | app/src/main/java/com/example/plantmonitoring_v2/screens/PlantDetailScreen.kt:186 | More days planted never give less progress |
| PlantDetail.OpenSchedules | app/src/main/java/com/example/plantmonitoring_v2/screens/PlantDetailScreen.kt:810-812 | The detail screen's schedule list starts as the task's schedules, with no dialog open |
| PlantDetail.BarHeight | app/src/main/java/com/example/plantmonitoring_v2/screens/PlantDetailScreen.kt:1439-1444 | Level 1 draws 60, level 2 draws 95, any other level draws 25 |
| PlantDetail.BarHeightOrdered | app/src/main/java/com/example/plantmonitoring_v2/screens/PlantDetailScreen.kt:1439-1444 | A better level never draws a lower bar, and the three levels draw strictly increasing heights |
| PlantDetail.SeasonBars | app/src/main/java/com/example/plantmonitoring_v2/screens/PlantDetailScreen.kt:1406-1444 | One bar per month, each as high as its month's level demands |
| PlantDetail.OptimalMonths | app/src/main/java/com/example/plantmonitoring_v2/screens/PlantDetailScreen.kt:1406-1410 | Exactly April, May, October and November draw the tallest bar |
| PlantList.MatchesSearch | app/src/main/java/com/example/plantmonitoring_v2/screens/PlantListScreen.kt:55-56 | The empty query matches every plant, and so does a query found in the name or the type as typed |
| PlantList.MatchesFilter | app/src/main/java/com/example/plantmonitoring_v2/screens/PlantListScreen.kt:57 | "All" lets every plant through; any other chip exactly the plants of that type |
| PlantList.Matches | app/src/main/java/com/example/plantmonitoring_v2/screens/PlantListScreen.kt:55-58 | With an empty query and "All" every plant matches; a match always satisfies the chip |
| PlantList.FilterPlants | app/src/main/java/com/example/plantmonitoring_v2/screens/PlantListScreen.kt:54-59 | The shown plants are among the plants and all match; every matching plant is shown |
| PlantList.FilterConcat | app/src/main/java/com/example/plantmonitoring_v2/screens/PlantListScreen.kt:54-59 | The filter works plant by plant, so it keeps list order |
| PlantList.NothingHiddenByDefault | app/src/main/java/com/example/plantmonitoring_v2/screens/PlantListScreen.kt:51-59 | With an empty query and the "All" chip, the list is shown whole |
| PlantList.InitiallyAllEightShown | app/src/main/java/com/example/plantmonitoring_v2/screens/PlantListScreen.kt:38-59 | On opening, all eight sample plants are shown |
| PlantList.SearchIgnoresQueryCase | app/src/main/java/com/example/plantmonitoring_v2/screens/PlantListScreen.kt:55-56 | A query and its lower-case form match the same plants |
| PlantList.TypeChipsCoverSamples | app/src/main/java/com/example/plantmonitoring_v2/screens/PlantListScreen.kt:227 | Every sample plant's type is one of the chips after "All" |
| PlantList.PlantListScreen.constructor | app/src/main/java/com/example/plantmonitoring_v2/screens/PlantListScreen.kt:38-52 | The screen starts with an empty query, the "All" chip and the eight sample plants |
| PlantList.PlantListScreen.SetSearchQuery | app/src/main/java/com/example/plantmonitoring_v2/screens/PlantListScreen.kt:112 | Typing sets the query and keeps the chip |
| PlantList.PlantListScreen.SelectFilter | app/src/main/java/com/example/plantmonitoring_v2/screens/PlantListScreen.kt:136 | Choosing a chip sets the filter and keeps the query |
| PlantCategory.CardAt | app/src/main/java/com/example/plantmonitoring_v2/screens/PlantCategoryScreen.kt:207 | Position `i` holds the `i`-th category before the end, and the "Add Custom" card exactly at the position after the last category |
| PlantCategory.PageCount | app/src/main/java/com/example/plantmonitoring_v2/screens/PlantCategoryScreen.kt:189-191 | The number of pages is the ceiling of the card count over four: enough pages for every card, and no empty last page |
| PlantCategory.PageSize | app/src/main/java/com/example/plantmonitoring_v2/screens/PlantCategoryScreen.kt:203-204 | Every page holds one to four cards |
| PlantCategory.Pages | app/src/main/java/com/example/plantmonitoring_v2/screens/PlantCategoryScreen.kt:193-206 | There are that many pages; every page holds one to four cards, and every page but the last holds four |
| PlantCategory.PagesPartition | app/src/main/java/com/example/plantmonitoring_v2/screens/PlantCategoryScreen.kt:193-207 | Card `i` is drawn at slot `i mod 4` of page `i div 4`, so every card is drawn exactly once, in order |
| PlantCategory.AddCustomLast | app/src/main/java/com/example/plantmonitoring_v2/screens/PlantCategoryScreen.kt:189-207 | "Add Custom" is the last card of the last page |
| PlantCategory.LayoutGrids | app/src/main/java/com/example/plantmonitoring_v2/screens/PlantCategoryScreen.kt:189-207 | The nested paging loops draw exactly the pages described above |
| PlantCategory.InitialLayout | app/src/main/java/com/example/plantmonitoring_v2/screens/PlantCategoryScreen.kt:177-191 | The three starting categories and "Add Custom" fill a single page |
| PlantCategory.CategoryPicker.constructor | app/src/main/java/com/example/plantmonitoring_v2/screens/PlantCategoryScreen.kt:177-179 | The screen starts with Fruits, Vegies and Herbs, an empty name and the dialog closed |
| PlantCategory.CategoryPicker.OpenAddDialog | app/src/main/java/com/example/plantmonitoring_v2/screens/PlantCategoryScreen.kt:258 | The "Add Custom" card opens the dialog |
| PlantCategory.CategoryPicker.TypeName | app/src/main/java/com/example/plantmonitoring_v2/screens/PlantCategoryScreen.kt:310 | The name field stores the text as typed |
| PlantCategory.CategoryPicker.Confirm | app/src/main/java/com/example/plantmonitoring_v2/screens/PlantCategoryScreen.kt:317-323 | A non-blank name is appended, the field cleared and the dialog closed; a blank name changes nothing |
| PlantCategory.CategoryPicker.Cancel | app/src/main/java/com/example/plantmonitoring_v2/screens/PlantCategoryScreen.kt:330-333 | Cancel clears the field and closes the dialog |
| PlantCategory.CategoryPicker.Dismiss | app/src/main/java/com/example/plantmonitoring_v2/screens/PlantCategoryScreen.kt:305 | Tapping outside closes the dialog and keeps the typed name |
| PlantCategory.ConfirmedCategoryPrecedesAddCustom | app/src/main/java/com/example/plantmonitoring_v2/screens/PlantCategoryScreen.kt:189-207 | An added category takes the place before "Add Custom" and moves it one card along |
| Login.ButtonEnabled | app/src/main/java/com/example/plantmonitoring_v2/screens/LoginScreen.kt:104 | The button is enabled exactly when nothing is loading and both fields hold a visible character |
| Login.LoginScreen.constructor | app/src/main/java/com/example/plantmonitoring_v2/screens/LoginScreen.kt:24-26 | The screen starts with empty fields, idle |
| Login.LoginScreen.TypeUsername | app/src/main/java/com/example/plantmonitoring_v2/screens/LoginScreen.kt:46 | The username field stores the text as typed |
| Login.LoginScreen.TypePassword | app/src/main/java/com/example/plantmonitoring_v2/screens/LoginScreen.kt:66 | The password field stores the text as typed |
| Login.LoginScreen.Click | app/src/main/java/com/example/plantmonitoring_v2/screens/LoginScreen.kt:86-99 | With both fields filled a sign-in is launched and loading shows; otherwise loading stops at once; no success is signalled |
| Login.LoginScreen.Complete | app/src/main/java/com/example/plantmonitoring_v2/screens/LoginScreen.kt:93-95 | The delayed completion stops loading and signals success once |
| Login.SignInOnce | app/src/main/java/com/example/plantmonitoring_v2/screens/LoginScreen.kt:86-104 | An enabled click followed by its completion signals exactly one success and returns to idle |
| Login.BlankDisables | app/src/main/java/com/example/plantmonitoring_v2/screens/LoginScreen.kt:104 | A blank field keeps the button disabled |

## Left out

- Compose layout, styling, icons, images, scrolling, drawers and the dashboard's static content. None of these computes a value the model could check.
- NavController route matching, back-stack handling and the `navigate` calls themselves. The model stops at the route string built and the argument bundle received.
- `Toast`, `LocalContext` and the `onSavePlant`/`onLoginSuccess` callbacks. These are counted or returned as values instead.
- The login `delay(1000)` coroutine is modelled as a separate `Complete` event. Timing and cancellation are not modelled.
- `Float` is modelled as `real`. Rounding of single-precision arithmetic is not modelled.
- Whitespace (`isBlank`), case (`lowercase`) and digits (`toIntOrNull`) follow ASCII only. Other Unicode spaces, letters and digits are not modelled.
- `ScheduledTask.days` and `getInt` are unbounded integers. 32-bit overflow of `days` is not modelled.
- The humidity bounds are stored as decimal strings in the source; the model stores the integers. `Strings.ParseIntOfDecimal` shows the string round trip loses nothing.
- AddCustomPlant.CustomPlantForm.SetHumidityMin: requires the slider's own range of 0 to 100 and does not model the string conversion.
- AddCustomPlant.CustomPlantForm.SetHumidityMax: requires 0 to 100 rather than the slider's exact lower bound of the minimum plus one. That lower bound is covered separately by `HumidityMaxSliderKeepsMin`.
- AddCustomPlant.CustomPlantForm.SetTempMin: does not restrict the value to the slider range 10 to 35; the ordering holds for any value.
- AddCustomPlant.CustomPlantForm.SetTempMax: does not restrict the value to the slider range of the minimum plus one to 40; the ordering holds for any value.
- Navigation.DetailTaskRoundTrip: assumes the router hands each substituted value back unchanged as its argument. Route matching is not modelled, and a name holding `/` would not survive as one path segment.
- Navigation.PresetPlantRoundTrip: assumes the same of the router; a field holding `/` would not survive as one path segment.
- Navigation.PresetRoute: states only the fixed prefix for arbitrary fields; the full shape is `PresetRouteShape`, under its condition below.
- Navigation.DetailRoute: states only the fixed prefix for arbitrary fields; the full shape is `DetailRouteShape`, under its condition below.
- Navigation.PresetRouteShape: holds only when no field contains `{`. A field holding a later placeholder such as `{plantStatus}` would itself be replaced by a later `replace`.
- Navigation.DetailRouteShape: holds only when no text field or schedule field contains `{`, for the same reason.
- The custom-plant form's other controls are not modelled: the watering and emergency volume sliders, light, frequency, harvest and yield text fields, and the drop-down's expanded flag. Each only stores its input.
- The on-field screen's clock, the watering indicators and the dashboard's static tables and graphs are not modelled. They draw fixed or time-dependent data.
- PlantCategoryListScreen's static plant tables and the preference-preset screen's display are not modelled. Only the `PlantItem` record and the route arguments that reach them are.
