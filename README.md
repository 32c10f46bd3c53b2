# TasksAimer core, modelled in Dafny

TasksAimer is an Android app for task boards. Users sign up or sign in, create boards, and add tasks to a board. Each task has a priority, a status, a due date and time, and assignees. The app also shows notifications and a profile with contacts. This project models the app's deterministic core in Dafny, and proves that core against the behaviour the Kotlin code implements:

- **Input masks and formatters.**
  - The `MM/dd/yyyy` date mask (`DateFormatter.fromDigits`, `DateInputInteractor.formatUserInput`). `fromDigits` is a method with a loop, proved against a specification function.
  - The `HH:MM` due-time mask and the time picker's parse and format.
  - The task card's due date and time text.
  - The notification age buckets.
- **Mappers.** Between Firestore records and domain tasks and boards. Missing required fields are errors. Enum names fall back to defaults. A blank id is sent as null. Round trips are proved in both directions.
- **Screen view models.** Create task, create board, task details, sign up, sign in and notifications.
  - Each is a class whose methods update its state fields, as the Kotlin view models do.
  - Each method is proved against pure functions of the old state: a reducer, where the view model has one.
  - The properties of those functions (save rules, one-field updates, optimistic update and rollback, unread counts) are proved as lemmas.
- **List logic.** Adding and removing assignees, candidate exclusion, and the case-insensitive user search of the create-task and profile screens.
- **Navigation.**
  - The `Screen` routes and their `createRoute` helpers.
  - The bottom bar's visibility and tab selection.
  - Which top bar and which floating button each route gets.
  - The current route is the destination pattern the navigation back stack reports, such as `tasks/{boardId}/{boardTitle}`.

Library behaviour is a parameter of the functions that use it:

- date parsing and formatting (`SimpleDateFormat`);
- `Uri.encode` and `Uri.decode`;
- the current time, one parameter per clock reading (the task mapper and the new task read the clock twice, once per timestamp);
- the clock's hour and minute;
- the Firebase uid fallback;
- user lookups.

The outcome of each asynchronous use case is an explicit success or failure argument. Each `viewModelScope.launch` is modelled as one sequential step.

Modules follow the source files: `Wrappers` (Option and Result), `Text` (ASCII versions of the Kotlin string functions used), `Entities` (the domain records), then one module per modelled Kotlin file.

## Model

| member | source | states |
|---|---|---|
| Text.DigitsOf | app/src/main/java/com/liulkovich/tasksaimer/domain/interactor/DateInputInteractor.kt:9 | the digit filter keeps only digits and never lengthens the text |
| Text.DigitsOfAppend | app/src/main/java/com/liulkovich/tasksaimer/domain/interactor/DateInputInteractor.kt:9 | filtering digits distributes over concatenation |
| Text.SubstringBeforePrefix | app/src/main/java/com/liulkovich/tasksaimer/presentation/components/DynamicTopBar.kt:35 | the key is a prefix of the route, and it is the whole route or is followed by the delimiter |
| Text.SubstringBeforeSlashBrace | app/src/main/java/com/liulkovich/tasksaimer/presentation/components/DynamicTopBar.kt:35 | a route `p/{…}` whose prefix has no '/' is cut exactly at the "/{" |
| Text.NoBraceKey | app/src/main/java/com/liulkovich/tasksaimer/presentation/components/DynamicTopBar.kt:35 | a route without '{' is its own key |
| Text.ContainsIgnoreCaseLowerQuery | app/src/main/java/com/liulkovich/tasksaimer/presentation/screen/createtask/CreateTaskScreen.kt:387-390 | case-insensitive containment does not depend on the case of the query |
| Text.ParseNatToString | app/src/main/java/com/liulkovich/tasksaimer/presentation/screen/profile/ProfileScreen.kt:114 | decimal rendering of a count can be read back to the same number |
| Entities.PriorityValueOf | app/src/main/java/com/liulkovich/tasksaimer/data/mapper/TasksMapper.kt:22-28 | `valueOf` yields the constant with exactly that name, and fails only when no constant has it |
| Entities.StatusValueOf | app/src/main/java/com/liulkovich/tasksaimer/data/mapper/TasksMapper.kt:30-34 | `valueOf` yields the constant with exactly that name, and fails only when no constant has it |
| DateFormatter.Take | app/src/main/java/com/liulkovich/tasksaimer/domain/utils/DateFormatter.kt:19 | `take(n)` is the prefix of length min(|s|, n) |
| DateFormatter.Buffer | app/src/main/java/com/liulkovich/tasksaimer/domain/utils/DateFormatter.kt:15-18 | the loop's buffer holds every input character plus one '/' after the 2nd and one after the 4th |
| DateFormatter.FromDigits | app/src/main/java/com/liulkovich/tasksaimer/domain/utils/DateFormatter.kt:14-19 | the loop that appends characters and slashes, then takes 10, returns `MaskDate(digits)` |
| DateFormatter.UncappedShapeStep | app/src/main/java/com/liulkovich/tasksaimer/domain/utils/DateFormatter.kt:15-17 | one loop iteration extends the shape of the first i characters by character i and its slash |
| DateFormatter.BufferShape | app/src/main/java/com/liulkovich/tasksaimer/domain/utils/DateFormatter.kt:15-18 | the buffer equals the independent shape description (groups of 2, 2 and the rest, with slashes) |
| DateFormatter.MaskDate | app/src/main/java/com/liulkovich/tasksaimer/domain/utils/DateFormatter.kt:14-19 | the result of `fromDigits` has at most ten characters, and `take(10)` cuts nothing from eight digits or fewer |
| DateFormatter.MaskDateShape | app/src/main/java/com/liulkovich/tasksaimer/domain/utils/DateFormatter.kt:14-19 | the mask equals the independent shape description on every input |
| DateFormatter.MaskDateLength | app/src/main/java/com/liulkovich/tasksaimer/domain/utils/DateFormatter.kt:14-19 | output is at most 10 long; for n ≤ 8 inputs its length is n plus one per slash reached; empty input gives "" |
| DateFormatter.MaskDatePositions | app/src/main/java/com/liulkovich/tasksaimer/domain/utils/DateFormatter.kt:15-17 | '/' can appear only at positions 2 and 5; every other position holds the next input character |
| DateFormatter.MaskDateFirstEight | app/src/main/java/com/liulkovich/tasksaimer/domain/utils/DateFormatter.kt:19 | only the first eight input characters influence the mask |
| DateFormatter.RemoveSlashes | app/src/main/java/com/liulkovich/tasksaimer/domain/utils/DateFormatter.kt:16 | the slash-free projection of a string contains no '/' |
| DateFormatter.RemoveSlashesAppend | app/src/main/java/com/liulkovich/tasksaimer/domain/utils/DateFormatter.kt:16 | deleting slashes distributes over concatenation |
| DateFormatter.RemoveSlashesNone | app/src/main/java/com/liulkovich/tasksaimer/domain/utils/DateFormatter.kt:16 | a string without '/' is unchanged by deleting slashes |
| DateFormatter.MaskDateRemoveSlashes | app/src/main/java/com/liulkovich/tasksaimer/domain/utils/DateFormatter.kt:15-19 | deleting the slashes of the output gives back the first min(n, 8) input characters in order |
| DateFormatter.MaskDateDigits | app/src/main/java/com/liulkovich/tasksaimer/domain/utils/DateFormatter.kt:15-19 | for digit input, the output's digits are the first min(n, 8) input digits |
| DateFormatter.MaskDateExamples | app/src/main/java/com/liulkovich/tasksaimer/domain/utils/DateFormatter.kt:16-19 | two digits give "dd/", eight digits give DD/DD/DDDD |
| DateInputInteractor.MaskDateDigitsAndSlashes | app/src/main/java/com/liulkovich/tasksaimer/domain/interactor/DateInputInteractor.kt:10 | masking digits yields only digits and '/' |
| DateInputInteractor.FormatUserInput | app/src/main/java/com/liulkovich/tasksaimer/domain/interactor/DateInputInteractor.kt:8-11 | output is at most 10 characters of digits and '/', and its digits are the first eight digits of the input |
| DateInputInteractor.FormatUserInputDigitsOnly | app/src/main/java/com/liulkovich/tasksaimer/domain/interactor/DateInputInteractor.kt:8-11 | non-digit characters never affect the output: formatting the input equals formatting its digits |
| DateInputInteractor.FormatUserInputSameDigits | app/src/main/java/com/liulkovich/tasksaimer/domain/interactor/DateInputInteractor.kt:9 | inputs with the same digit sequence are formatted alike |
| DateInputInteractor.FormatUserInputIdempotent | app/src/main/java/com/liulkovich/tasksaimer/domain/interactor/DateInputInteractor.kt:8-11 | re-feeding the formatted text changes nothing |
| DateInputInteractor.PickerDateStable | app/src/main/java/com/liulkovich/tasksaimer/domain/interactor/DateInputInteractor.kt:13-15 | a date in the picker's `MM/dd/yyyy` shape is left unchanged by the keystroke mask |
| DateInputInteractor.FormatFromPicker | app/src/main/java/com/liulkovich/tasksaimer/domain/interactor/DateInputInteractor.kt:13-15 | whenever the library writes the `MM/dd/yyyy` shape, feeding the picked text through `formatUserInput` gives it back unchanged |
| TaskDueTimeTextField.MaskTime | app/src/main/java/com/liulkovich/tasksaimer/presentation/components/TaskDueTimeTextField.kt:38-45 | the mask is at most 5 characters, ':' at index 2 and digits everywhere else |
| TaskDueTimeTextField.MaskTimeByCount | app/src/main/java/com/liulkovich/tasksaimer/presentation/components/TaskDueTimeTextField.kt:39-45 | 0, 1, 2, 3, ≥4 digits give "", "d", "dd:", "dd:d", "dd:dd" |
| TaskDueTimeTextField.MaskTimeKeepsFirstFourDigits | app/src/main/java/com/liulkovich/tasksaimer/presentation/components/TaskDueTimeTextField.kt:38 | the mask's digits are exactly the first four digits of the input, in order |
| TaskDueTimeTextField.MaskTimeIdempotent | app/src/main/java/com/liulkovich/tasksaimer/presentation/components/TaskDueTimeTextField.kt:36-47 | masking the mask's own output changes nothing |
| TaskDueTimeTextField.PatternTextStable | app/src/main/java/com/liulkovich/tasksaimer/presentation/components/TaskDueTimeTextField.kt:36-47 | text of the form dd:dd is a fixed point of the keystroke mask |
| TaskDueTimeTextField.MatchesTimePattern | app/src/main/java/com/liulkovich/tasksaimer/presentation/components/TaskDueTimeTextField.kt:85 | text matching `\d{2}:\d{2}` is never rewritten by the keystroke mask |
| TaskDueTimeTextField.ParseTime | app/src/main/java/com/liulkovich/tasksaimer/presentation/components/TaskDueTimeTextField.kt:85-86 | a parse succeeds iff the whole text is dd:dd, giving two numbers below 100 with no range check |
| TaskDueTimeTextField.InitialTime | app/src/main/java/com/liulkovich/tasksaimer/presentation/components/TaskDueTimeTextField.kt:84-89 | matching text gives its parsed pair, any other text the clock's hour and minute |
| TaskDueTimeTextField.MaskTimeParses | app/src/main/java/com/liulkovich/tasksaimer/presentation/components/TaskDueTimeTextField.kt:43-44 | four or more typed digits give text that parses back to the first two digit pairs; fewer never parse |
| TaskDueTimeTextField.Pad2 | app/src/main/java/com/liulkovich/tasksaimer/presentation/components/TaskDueTimeTextField.kt:68 | `%02d` of a number below 100 is two digits reading back as that number |
| TaskDueTimeTextField.PickerText | app/src/main/java/com/liulkovich/tasksaimer/presentation/components/TaskDueTimeTextField.kt:68 | the picker's `%02d:%02d` text for an hour and minute below 100 matches the field's time pattern |
| TaskDueTimeTextField.PickerTextParses | app/src/main/java/com/liulkovich/tasksaimer/presentation/components/TaskDueTimeTextField.kt:68 | the picker's "%02d:%02d" text is 5 characters and parses back to the chosen hour and minute |
| TaskDueTimeTextField.TwoDigitValue | app/src/main/java/com/liulkovich/tasksaimer/presentation/components/TaskDueTimeTextField.kt:85-86 | two digits read as ten times the first plus the second |
| TaskDueTimeTextField.PickerTextStable | app/src/main/java/com/liulkovich/tasksaimer/presentation/components/TaskDueTimeTextField.kt:68 | the picker's text is a fixed point of the keystroke mask |
| TaskDueTimeTextField.DueTimeField.constructor | app/src/main/java/com/liulkovich/tasksaimer/presentation/components/TaskDueTimeTextField.kt:26-27 | the field starts with the task's time and the picker closed |
| TaskDueTimeTextField.DueTimeField.OnValueChange | app/src/main/java/com/liulkovich/tasksaimer/presentation/components/TaskDueTimeTextField.kt:36-48 | the shown text and the emitted value are the mask of the input; the picker flag is untouched |
| TaskDueTimeTextField.DueTimeField.OnTaskDueTimeChanged | app/src/main/java/com/liulkovich/tasksaimer/presentation/components/TaskDueTimeTextField.kt:27-32 | a new time from the parent replaces the shown text; the picker flag and the emitted values are untouched |
| TaskDueTimeTextField.DueTimeField.OpenPicker | app/src/main/java/com/liulkovich/tasksaimer/presentation/components/TaskDueTimeTextField.kt:52 | the clock icon opens the picker and changes nothing else |
| TaskDueTimeTextField.DueTimeField.PickerInitialTime | app/src/main/java/com/liulkovich/tasksaimer/presentation/components/TaskDueTimeTextField.kt:84-89 | the picker opens on the parsed text (both parts below 100) or on the clock time |
| TaskDueTimeTextField.DueTimeField.OnTimeSelected | app/src/main/java/com/liulkovich/tasksaimer/presentation/components/TaskDueTimeTextField.kt:67-72 | the shown and emitted text is the picker's formatted time, and the picker closes |
| TaskDueTimeTextField.DueTimeField.Dismiss | app/src/main/java/com/liulkovich/tasksaimer/presentation/components/TaskDueTimeTextField.kt:73 | dismissing closes the picker and changes nothing else |
| TasksMapper.PriorityOrDefault | app/src/main/java/com/liulkovich/tasksaimer/data/mapper/TasksMapper.kt:22-28 | a recognised name gives its priority; a null or unknown name gives MEDIUM |
| TasksMapper.StatusOrDefault | app/src/main/java/com/liulkovich/tasksaimer/data/mapper/TasksMapper.kt:30-34 | a recognised name gives its status; a null or unknown name gives TODO |
| TasksMapper.ToDomain | app/src/main/java/com/liulkovich/tasksaimer/data/mapper/TasksMapper.kt:9-52 | fails exactly on a null id or board id, with their messages; a null title becomes "Untitled Task"; the owner falls back to the signed-in uid; each null time falls back to its own clock reading |
| TasksMapper.ToDto | app/src/main/java/com/liulkovich/tasksaimer/data/mapper/TasksMapper.kt:55-70 | a null or blank id is sent as null, any other kept; enum names read back to the same constants; owner and update time are not written |
| TasksMapper.TaskRoundTrip | app/src/main/java/com/liulkovich/tasksaimer/data/mapper/TasksMapper.kt:13-15 | for a non-blank id, mapping out and back keeps every field except ownerId and updatedAt, which come from the fallbacks |
| TasksMapper.TaskBlankIdFails | app/src/main/java/com/liulkovich/tasksaimer/data/mapper/TasksMapper.kt:11 | a task with a null or blank id cannot come back: the record has a null id |
| TasksMapper.TaskDtoRoundTrip | app/src/main/java/com/liulkovich/tasksaimer/data/mapper/TasksMapper.kt:9-70 | a complete record with recognised enum names maps in and out unchanged except for the two unwritten fields |
| BoardMapper.ToDomain | app/src/main/java/com/liulkovich/tasksaimer/data/mapper/BoardMapper.kt:6-21 | fails exactly when id, title or owner is null, with the first missing field's message; a null creation time becomes now |
| BoardMapper.ToDto | app/src/main/java/com/liulkovich/tasksaimer/data/mapper/BoardMapper.kt:27-41 | a blank id is sent as null and any other kept; the update time is not written |
| BoardMapper.BoardRoundTrip | app/src/main/java/com/liulkovich/tasksaimer/data/mapper/BoardMapper.kt:6-41 | `toDomain(toDto(b)) == b` for every board with a non-blank id |
| BoardMapper.BoardDtoRoundTrip | app/src/main/java/com/liulkovich/tasksaimer/data/mapper/BoardMapper.kt:6-41 | `toDto(toDomain(d)) == d` for a complete record with a non-blank id and no update time |
| BoardMapper.BoardBlankIdFails | app/src/main/java/com/liulkovich/tasksaimer/data/mapper/BoardMapper.kt:8 | a board with a blank id fails with the null-id error after a round trip |
| AuthTypes.FailureText | app/src/main/java/com/liulkovich/tasksaimer/presentation/screen/auth/SignInViewModel.kt:72 | a failure shows the exception's message, or the screen's fallback when it has none |
| SignUp.EnabledConfirmLength | app/src/main/java/com/liulkovich/tasksaimer/presentation/screen/auth/SignUpViewModel.kt:79-80 | an enabled form's confirmation also has at least six characters |
| SignUp.FormValid | app/src/main/java/com/liulkovich/tasksaimer/presentation/screen/auth/SignUpViewModel.kt:75-82 | an enabled button has both names, an email and a password and confirmation of at least six characters |
| SignUp.EmptyFormInvalid | app/src/main/java/com/liulkovich/tasksaimer/presentation/screen/auth/SignUpViewModel.kt:75-82 | the empty initial form is invalid |
| SignUp.EachFieldCanDisable | app/src/main/java/com/liulkovich/tasksaimer/presentation/screen/auth/SignUpViewModel.kt:75-82 | blanking a name, emptying the email or password, or changing the confirmation disables a valid form |
| SignUp.NewUser | app/src/main/java/com/liulkovich/tasksaimer/presentation/screen/auth/SignUpViewModel.kt:87-91 | the registered user carries the form's names and email and no id |
| SignUp.SignUpViewModel.constructor | app/src/main/java/com/liulkovich/tasksaimer/presentation/screen/auth/SignUpViewModel.kt:22-48 | all fields empty, button disabled, state Idle |
| SignUp.SignUpViewModel.ValidateForm | app/src/main/java/com/liulkovich/tasksaimer/presentation/screen/auth/SignUpViewModel.kt:75-82 | re-establishes: button enabled iff the form rule holds over the current fields |
| SignUp.SignUpViewModel.OnFirstNameChanged | app/src/main/java/com/liulkovich/tasksaimer/presentation/screen/auth/SignUpViewModel.kt:50-53 | sets only the first name and keeps the button invariant |
| SignUp.SignUpViewModel.OnLastNameChanged | app/src/main/java/com/liulkovich/tasksaimer/presentation/screen/auth/SignUpViewModel.kt:55-58 | sets only the last name and keeps the button invariant |
| SignUp.SignUpViewModel.OnEmailChanged | app/src/main/java/com/liulkovich/tasksaimer/presentation/screen/auth/SignUpViewModel.kt:60-63 | sets only the email and keeps the button invariant |
| SignUp.SignUpViewModel.OnPasswordChanged | app/src/main/java/com/liulkovich/tasksaimer/presentation/screen/auth/SignUpViewModel.kt:65-68 | sets only the password and keeps the button invariant |
| SignUp.SignUpViewModel.OnConfirmPasswordChanged | app/src/main/java/com/liulkovich/tasksaimer/presentation/screen/auth/SignUpViewModel.kt:70-73 | sets only the confirmation and keeps the button invariant |
| SignUp.SignUpViewModel.SignUp | app/src/main/java/com/liulkovich/tasksaimer/presentation/screen/auth/SignUpViewModel.kt:84-97 | registers the form's user; success stays Loading and navigates home, failure shows the message or "Sign up failed" |
| SignUp.SignUpViewModel.OnCurrentUser | app/src/main/java/com/liulkovich/tasksaimer/presentation/screen/auth/SignUpViewModel.kt:99-105 | a signed-in user sends the screen home, a null one does nothing |
| SignIn.FormValid | app/src/main/java/com/liulkovich/tasksaimer/presentation/screen/auth/SignInViewModel.kt:56-61 | an enabled button has a non-empty email and a password of at least six characters |
| SignIn.FormValidSimplified | app/src/main/java/com/liulkovich/tasksaimer/presentation/screen/auth/SignInViewModel.kt:56-61 | the rule is equivalent to '@' in the email and a password of at least six characters |
| SignIn.ResetToast | app/src/main/java/com/liulkovich/tasksaimer/presentation/screen/auth/SignInViewModel.kt:107-118 | a sent reset toasts the address; a failure toasts its message or the fallback |
| SignIn.ResetToastNamesAddress | app/src/main/java/com/liulkovich/tasksaimer/presentation/screen/auth/SignInViewModel.kt:109-111 | the success toast differs per address and from the blank-email toast |
| SignIn.SignInViewModel.constructor | app/src/main/java/com/liulkovich/tasksaimer/presentation/screen/auth/SignInViewModel.kt:24-44 | empty fields, button disabled, Idle, dialog closed |
| SignIn.SignInViewModel.ValidateForm | app/src/main/java/com/liulkovich/tasksaimer/presentation/screen/auth/SignInViewModel.kt:56-61 | re-establishes: button enabled iff the form rule holds |
| SignIn.SignInViewModel.OnEmailChanged | app/src/main/java/com/liulkovich/tasksaimer/presentation/screen/auth/SignInViewModel.kt:46-49 | sets only the email and keeps the button invariant |
| SignIn.SignInViewModel.OnPasswordChanged | app/src/main/java/com/liulkovich/tasksaimer/presentation/screen/auth/SignInViewModel.kt:51-54 | sets only the password and keeps the button invariant |
| SignIn.SignInViewModel.SignIn | app/src/main/java/com/liulkovich/tasksaimer/presentation/screen/auth/SignInViewModel.kt:63-76 | success navigates home and returns to Idle; failure shows the message or "Sign in failed" |
| SignIn.SignInViewModel.OpenResetDialog | app/src/main/java/com/liulkovich/tasksaimer/presentation/screen/auth/SignInViewModel.kt:93 | the dialog flag becomes true |
| SignIn.SignInViewModel.CloseResetDialog | app/src/main/java/com/liulkovich/tasksaimer/presentation/screen/auth/SignInViewModel.kt:94 | the dialog flag becomes false |
| SignIn.SignInViewModel.ResetPassword | app/src/main/java/com/liulkovich/tasksaimer/presentation/screen/auth/SignInViewModel.kt:96-121 | a blank address only toasts; otherwise state is Loading, the result's toast is sent, and only success closes the dialog |
| SignIn.SignInViewModel.CheckCurrentUser | app/src/main/java/com/liulkovich/tasksaimer/presentation/screen/auth/SignInViewModel.kt:78-87 | a signed-in user sends the screen home |
| CreateTask.InitialState | app/src/main/java/com/liulkovich/tasksaimer/presentation/screen/createtask/CreateTaskViewModel.kt:25-29 | a missing board id is an error; otherwise an empty Creation form (MEDIUM, TODO, no assignees) that cannot be saved |
| CreateTask.TaskToSave | app/src/main/java/com/liulkovich/tasksaimer/presentation/screen/createtask/CreateTaskViewModel.kt:105-117 | the saved task has no id, owner "user123", its own clock reading for each of the two times, and every other field from the form |
| CreateTask.IsSaveEnabled | app/src/main/java/com/liulkovich/tasksaimer/presentation/screen/createtask/CreateTaskViewModel.kt:159-160 | only a Creation form with a non-empty title and no "Invalid date" error can be saved |
| CreateTask.Reduce | app/src/main/java/com/liulkovich/tasksaimer/presentation/screen/createtask/CreateTaskViewModel.kt:34-121 | Back finishes; SaveTask on an enabled form finishes when `addTaskUseCase` returns and stays Loading when it throws, and otherwise does nothing; field commands touch only Creation states |
| CreateTask.FieldCommandsReplaceOneField | app/src/main/java/com/liulkovich/tasksaimer/presentation/screen/createtask/CreateTaskViewModel.kt:34-93 | title, description, due time, priority and assignees each replace exactly their own field |
| CreateTask.DueDateSetsError | app/src/main/java/com/liulkovich/tasksaimer/presentation/screen/createtask/CreateTaskViewModel.kt:55-65 | the due date stores the masked input, with no error iff `isValid` accepts the masked text |
| CreateTask.SaveEnabledAfterFieldCommand | app/src/main/java/com/liulkovich/tasksaimer/presentation/screen/createtask/CreateTaskViewModel.kt:159-160 | only the title and date commands can change whether saving is enabled, and how |
| CreateTask.OutcomeMattersOnlyForSave | app/src/main/java/com/liulkovich/tasksaimer/presentation/screen/createtask/CreateTaskViewModel.kt:98-121 | only SaveTask depends on the use case's outcome: an enabled save finishes if it returns and stays Loading if it throws |
| CreateTask.FinishedAndLoadingAreStable | app/src/main/java/com/liulkovich/tasksaimer/presentation/screen/createtask/CreateTaskViewModel.kt:36-43 | no command leaves Finished; Loading is left only by Back |
| CreateTask.FieldCommandsKeepCreation | app/src/main/java/com/liulkovich/tasksaimer/presentation/screen/createtask/CreateTaskViewModel.kt:34-93 | any run of field commands keeps a Creation state with its board id and status |
| CreateTask.SavedTaskHasNoId | app/src/main/java/com/liulkovich/tasksaimer/presentation/screen/createtask/CreateTaskViewModel.kt:105 | the mapped record of the saved task has a null id; the task repository then sets the new document's id |
| CreateTask.CreateTaskViewModel.constructor | app/src/main/java/com/liulkovich/tasksaimer/presentation/screen/createtask/CreateTaskViewModel.kt:25-29 | starts in the initial Creation state for the board |
| CreateTask.CreateTaskViewModel.ProcessCommand | app/src/main/java/com/liulkovich/tasksaimer/presentation/screen/createtask/CreateTaskViewModel.kt:34-121 | the state moves as `Reduce` says; an enabled save writes Loading, hands over the task, and writes Finished only when `addTaskUseCase` returns |
| CreateBoard.BoardToSave | app/src/main/java/com/liulkovich/tasksaimer/presentation/screen/createboard/CreateBoardViewModel.kt:72-91 | the saved board has the form's title, description and image, a blank id and the fixed owner |
| CreateBoard.IsSaveEnabled | app/src/main/java/com/liulkovich/tasksaimer/presentation/screen/createboard/CreateBoardViewModel.kt:120-121 | only a Creation form with a non-empty title and a chosen image can be saved |
| CreateBoard.Reduce | app/src/main/java/com/liulkovich/tasksaimer/presentation/screen/createboard/CreateBoardViewModel.kt:26-91 | Back finishes; SaveBoard finishes a Creation form when `addBoardUseCase` returns and leaves it unchanged when it throws; Finished is final; field commands keep a Creation state |
| CreateBoard.InitialStateCannotSave | app/src/main/java/com/liulkovich/tasksaimer/presentation/screen/createboard/CreateBoardViewModel.kt:20 | the empty form cannot be saved |
| CreateBoard.FieldCommandsReplaceOneField | app/src/main/java/com/liulkovich/tasksaimer/presentation/screen/createboard/CreateBoardViewModel.kt:26-68 | each field command replaces only its own field; DeleteImage clears the image whatever the index |
| CreateBoard.ImageTogglesSave | app/src/main/java/com/liulkovich/tasksaimer/presentation/screen/createboard/CreateBoardViewModel.kt:120-121 | with a non-blank title, adding an image enables saving and deleting it disables |
| CreateBoard.SavedBoardHasNoId | app/src/main/java/com/liulkovich/tasksaimer/presentation/screen/createboard/CreateBoardViewModel.kt:72-91 | the Kotlin call passes no id; with the blank id the model chooses for it, the board is sent with a null id |
| CreateBoard.CreateBoardViewModel.constructor | app/src/main/java/com/liulkovich/tasksaimer/presentation/screen/createboard/CreateBoardViewModel.kt:20 | starts on the empty form |
| CreateBoard.CreateBoardViewModel.ProcessCommand | app/src/main/java/com/liulkovich/tasksaimer/presentation/screen/createboard/CreateBoardViewModel.kt:24-92 | the state moves as `Reduce` says; a save from Creation hands over the board, even when saving is disabled, whether or not the use case then throws |
| TaskDetails.OnEmission | app/src/main/java/com/liulkovich/tasksaimer/presentation/screen/taskdetails/TaskDetailsViewModel.kt:55-67 | a null task gives the deleted error; a task gives Success with no creator or assignee |
| TaskDetails.OnFailure | app/src/main/java/com/liulkovich/tasksaimer/presentation/screen/taskdetails/TaskDetailsViewModel.kt:51-53 | a failing stream gives Error with its message or the fallback |
| TaskDetails.AssigneeId | app/src/main/java/com/liulkovich/tasksaimer/presentation/screen/taskdetails/TaskDetailsViewModel.kt:81-87 | the assignee is looked up by the first assigned id, none when the list is empty |
| TaskDetails.UsersLoaded | app/src/main/java/com/liulkovich/tasksaimer/presentation/screen/taskdetails/TaskDetailsViewModel.kt:74-100 | only a Success state changes, and only its creator and assignee |
| TaskDetails.Accepts | app/src/main/java/com/liulkovich/tasksaimer/presentation/screen/taskdetails/TaskDetailsViewModel.kt:104-106 | commands run only on a loaded task that has an id; the Loading and Error screens and an unstored task ignore them |
| TaskDetails.TargetStatus | app/src/main/java/com/liulkovich/tasksaimer/presentation/screen/taskdetails/TaskDetailsViewModel.kt:110-124 | completing moves the task to DONE and rework to IN_PROGRESS; no command moves it back to TODO |
| TaskDetails.SuccessMessage | app/src/main/java/com/liulkovich/tasksaimer/presentation/screen/taskdetails/TaskDetailsViewModel.kt:110-124 | a status command's success toast differs from its error text and from the decline toasts |
| TaskDetails.ErrorMessage | app/src/main/java/com/liulkovich/tasksaimer/presentation/screen/taskdetails/TaskDetailsViewModel.kt:110-124 | each status command has its own error text, distinct from the decline toasts |
| TaskDetails.Optimistic | app/src/main/java/com/liulkovich/tasksaimer/presentation/screen/taskdetails/TaskDetailsViewModel.kt:141-143 | the optimistic state changes only the task's status, to the command's target |
| TaskDetails.Process | app/src/main/java/com/liulkovich/tasksaimer/presentation/screen/taskdetails/TaskDetailsViewModel.kt:103-167 | commands need Success with a task id; a status command's success keeps the new status, toasts and navigates back; failure restores the state and shows an error |
| TaskDetails.DeclineKeepsState | app/src/main/java/com/liulkovich/tasksaimer/presentation/screen/taskdetails/TaskDetailsViewModel.kt:157-167 | declining never changes the state; success toasts "Task declined" and navigates back |
| TaskDetails.NavigatesBackIffSucceeded | app/src/main/java/com/liulkovich/tasksaimer/presentation/screen/taskdetails/TaskDetailsViewModel.kt:103-167 | the screen navigates back iff an accepted command succeeded or was NavigateBack |
| TaskDetails.ErrorsComeFromFailures | app/src/main/java/com/liulkovich/tasksaimer/presentation/screen/taskdetails/TaskDetailsViewModel.kt:150-153 | an error is shown iff an accepted use case failed, and a failure never changes the state |
| TaskDetails.MarkAsCompletedIdempotent | app/src/main/java/com/liulkovich/tasksaimer/presentation/screen/taskdetails/TaskDetailsViewModel.kt:110-124 | completing an already completed task again leaves the state as it is |
| TaskDetails.CommandsChangeOnlyStatus | app/src/main/java/com/liulkovich/tasksaimer/presentation/screen/taskdetails/TaskDetailsViewModel.kt:110-124 | any run of commands changes at most the task's status |
| TaskDetails.FailuresRollBack | app/src/main/java/com/liulkovich/tasksaimer/presentation/screen/taskdetails/TaskDetailsViewModel.kt:150-153 | a run of commands whose use cases all fail leaves the state unchanged |
| TaskDetails.TaskDetailsViewModel.constructor | app/src/main/java/com/liulkovich/tasksaimer/presentation/screen/taskdetails/TaskDetailsViewModel.kt:38 | starts Loading with no effects |
| TaskDetails.TaskDetailsViewModel.OnStart | app/src/main/java/com/liulkovich/tasksaimer/presentation/screen/taskdetails/TaskDetailsViewModel.kt:48-72 | the observer's start writes Loading |
| TaskDetails.TaskDetailsViewModel.OnTask | app/src/main/java/com/liulkovich/tasksaimer/presentation/screen/taskdetails/TaskDetailsViewModel.kt:55-67 | each emission writes `OnEmission` of the task |
| TaskDetails.TaskDetailsViewModel.OnError | app/src/main/java/com/liulkovich/tasksaimer/presentation/screen/taskdetails/TaskDetailsViewModel.kt:51-53 | a stream failure writes `OnFailure` of its message |
| TaskDetails.TaskDetailsViewModel.LoadUsers | app/src/main/java/com/liulkovich/tasksaimer/presentation/screen/taskdetails/TaskDetailsViewModel.kt:74-100 | writes the looked-up users only into a Success state |
| TaskDetails.TaskDetailsViewModel.ProcessCommand | app/src/main/java/com/liulkovich/tasksaimer/presentation/screen/taskdetails/TaskDetailsViewModel.kt:103-134 | the state and effects are those of `Process`; status commands write the optimistic state first |
| TaskDetails.TaskDetailsViewModel.UpdateTask | app/src/main/java/com/liulkovich/tasksaimer/presentation/screen/taskdetails/TaskDetailsViewModel.kt:136-155 | writes the optimistic task, then keeps it with a toast and back, or restores the old state with an error |
| Notifications.CountUnread | app/src/main/java/com/liulkovich/tasksaimer/presentation/screen/notifications/NotificationsViewModel.kt:51 | the count equals the number of unread positions, never exceeds the list, and is zero iff all are read |
| Notifications.CountUnreadAppend | app/src/main/java/com/liulkovich/tasksaimer/presentation/screen/notifications/NotificationsViewModel.kt:51 | counting distributes over concatenation |
| Notifications.MarkingReadLowersCount | app/src/main/java/com/liulkovich/tasksaimer/presentation/screen/notifications/NotificationsViewModel.kt:73-77 | marking one unread notification read lowers the count by exactly one |
| Notifications.StateFor | app/src/main/java/com/liulkovich/tasksaimer/presentation/screen/notifications/NotificationsViewModel.kt:48-53 | a list replaces the state with its own unread count, not loading |
| Notifications.CallFor | app/src/main/java/com/liulkovich/tasksaimer/presentation/screen/notifications/NotificationsViewModel.kt:71-87 | a command calls the repository for the signed-in user, and nothing without one |
| Notifications.NotificationsViewModel.constructor | app/src/main/java/com/liulkovich/tasksaimer/presentation/screen/notifications/NotificationsViewModel.kt:29 | starts with an empty list, 0 unread, loading |
| Notifications.NotificationsViewModel.OnSignedOut | app/src/main/java/com/liulkovich/tasksaimer/presentation/screen/notifications/NotificationsViewModel.kt:39-45 | a signed-out user resets to an empty list, 0 unread, not loading |
| Notifications.NotificationsViewModel.OnNotifications | app/src/main/java/com/liulkovich/tasksaimer/presentation/screen/notifications/NotificationsViewModel.kt:48-53 | each list replaces the whole state; the count matches the list |
| Notifications.NotificationsViewModel.ProcessCommand | app/src/main/java/com/liulkovich/tasksaimer/presentation/screen/notifications/NotificationsViewModel.kt:71-87 | returns the repository call, none without a user; the state is untouched |
| NotificationsScreen.Bucket | app/src/main/java/com/liulkovich/tasksaimer/presentation/screen/notifications/NotificationsScreen.kt:187-193 | the five buckets are disjoint and cover every age; minutes are 1..59 and hours 1..23, floored |
| NotificationsScreen.BucketMonotone | app/src/main/java/com/liulkovich/tasksaimer/presentation/screen/notifications/NotificationsScreen.kt:187-193 | an older notification never reads as more recent |
| NotificationsScreen.FormatTimestamp | app/src/main/java/com/liulkovich/tasksaimer/presentation/screen/notifications/NotificationsScreen.kt:180-194 | a null timestamp reads "Just now"; otherwise the label of the age's bucket |
| NotificationsScreen.RelativeLabelShape | app/src/main/java/com/liulkovich/tasksaimer/presentation/screen/notifications/NotificationsScreen.kt:189-190 | the minutes and hours labels are one or two digits and their unit |
| NotificationsScreen.IconFor | app/src/main/java/com/liulkovich/tasksaimer/presentation/screen/notifications/NotificationsScreen.kt:170-178 | the icon drawn for a type identifies that type |
| NotificationsScreen.IconsCoverTypes | app/src/main/java/com/liulkovich/tasksaimer/presentation/screen/notifications/NotificationsScreen.kt:170-178 | every icon is drawn for some type, so the icon map is a bijection |
| NotificationsScreen.ColorFor | app/src/main/java/com/liulkovich/tasksaimer/presentation/screen/notifications/NotificationsScreen.kt:159-168 | only task assignments use the theme colour; every other type gets an opaque ARGB colour |
| NotificationsScreen.IconsAndColorsIdentifyType | app/src/main/java/com/liulkovich/tasksaimer/presentation/screen/notifications/NotificationsScreen.kt:159-178 | both maps are total and injective over the five types |
| NotificationsScreen.ShowsUnreadDot | app/src/main/java/com/liulkovich/tasksaimer/presentation/screen/notifications/NotificationsScreen.kt:117 | a notification has a dot iff the view model counts it as unread |
| NotificationsScreen.DotsMatchUnreadCount | app/src/main/java/com/liulkovich/tasksaimer/presentation/screen/notifications/NotificationsScreen.kt:117 | the dots drawn equal the unread count the view model publishes |
| TasksScreen.FormatDueDateTime | app/src/main/java/com/liulkovich/tasksaimer/presentation/screen/tasks/TasksScreen.kt:236-241 | no date and no time reads "No due date"; one gives that value; both give date, ", ", time |
| TasksScreen.DueDateTimeReadsBack | app/src/main/java/com/liulkovich/tasksaimer/presentation/screen/tasks/TasksScreen.kt:236-241 | for masked inputs, "No due date" appears only when both are missing and the pair can be split back at the comma |
| TasksScreen.KotlinRem | app/src/main/java/com/liulkovich/tasksaimer/presentation/screen/tasks/TasksScreen.kt:244 | Kotlin's truncating remainder: sign of the dividend, related to Euclidean `%` |
| TasksScreen.EuclideanUnique | app/src/main/java/com/liulkovich/tasksaimer/presentation/screen/tasks/TasksScreen.kt:244 | the Euclidean remainder is unique |
| TasksScreen.MultipleAtLeast | app/src/main/java/com/liulkovich/tasksaimer/presentation/screen/tasks/TasksScreen.kt:244 | a positive multiple of a positive number is at least that number |
| TasksScreen.RandomColor | app/src/main/java/com/liulkovich/tasksaimer/presentation/screen/tasks/TasksScreen.kt:243-249 | indexing by `seed % 5` is in bounds iff the seed is non-negative or a multiple of 5, and then gives a palette colour |
| TasksScreen.AvatarCount | app/src/main/java/com/liulkovich/tasksaimer/presentation/screen/tasks/TasksScreen.kt:213 | at most the first two assignees get avatars |
| TasksScreen.AvatarColorsDefined | app/src/main/java/com/liulkovich/tasksaimer/presentation/screen/tasks/TasksScreen.kt:213 | every avatar gets a colour, and two avatars get different ones |
| TasksScreen.FilterStatus | app/src/main/java/com/liulkovich/tasksaimer/presentation/screen/tasks/TasksScreen.kt:261-266 | only indices 1..3 select a status |
| TasksScreen.FilterStatusName | app/src/main/java/com/liulkovich/tasksaimer/presentation/screen/tasks/TasksScreen.kt:280-285 | the sent string is empty iff no status is selected, and otherwise names that status |
| TasksScreen.StatusLabel | app/src/main/java/com/liulkovich/tasksaimer/presentation/screen/tasks/TasksScreen.kt:180-184 | every card label is one of the filter row's status buttons, never "All" |
| TasksScreen.StatusColor | app/src/main/java/com/liulkovich/tasksaimer/presentation/screen/tasks/TasksScreen.kt:180-184 | every card label colour is an opaque ARGB value |
| TasksScreen.StatusStylesDistinct | app/src/main/java/com/liulkovich/tasksaimer/presentation/screen/tasks/TasksScreen.kt:180-184 | different statuses get different labels and different colours |
| TasksScreen.FilterMatchesCards | app/src/main/java/com/liulkovich/tasksaimer/presentation/screen/tasks/TasksScreen.kt:180-184 | each status has a filter button labelled like its cards, and different buttons send different strings |
| CreateTaskScreen.AssignedUsers | app/src/main/java/com/liulkovich/tasksaimer/presentation/screen/createtask/CreateTaskScreen.kt:177 | exactly the contacts whose id is assigned |
| CreateTaskScreen.AssignedUsersAppend | app/src/main/java/com/liulkovich/tasksaimer/presentation/screen/createtask/CreateTaskScreen.kt:177 | filtering contacts distributes over concatenation, so the assigned contacts keep contact order |
| CreateTaskScreen.AssignedUsersOne | app/src/main/java/com/liulkovich/tasksaimer/presentation/screen/createtask/CreateTaskScreen.kt:177 | a single contact is kept exactly when its id is in the assigned ids |
| CreateTaskScreen.AssignedUsersCount | app/src/main/java/com/liulkovich/tasksaimer/presentation/screen/createtask/CreateTaskScreen.kt:177 | an assigned contact appears as often as among the contacts, any other not at all |
| CreateTaskScreen.AddAssignee | app/src/main/java/com/liulkovich/tasksaimer/presentation/screen/createtask/CreateTaskScreen.kt:180 | the id is appended at the end, the rest kept |
| CreateTaskScreen.RemoveFirst | app/src/main/java/com/liulkovich/tasksaimer/presentation/screen/createtask/CreateTaskScreen.kt:184 | an absent id leaves the list as it is; a present one shortens it by exactly one |
| CreateTaskScreen.RemoveFirstMultiset | app/src/main/java/com/liulkovich/tasksaimer/presentation/screen/createtask/CreateTaskScreen.kt:184 | exactly one occurrence of the id goes, and every other element stays |
| CreateTaskScreen.IndexOf | app/src/main/java/com/liulkovich/tasksaimer/presentation/screen/createtask/CreateTaskScreen.kt:184 | the position of the first occurrence |
| CreateTaskScreen.RemoveFirstKeepsOrder | app/src/main/java/com/liulkovich/tasksaimer/presentation/screen/createtask/CreateTaskScreen.kt:184 | removal cuts out the first occurrence and keeps the rest in order |
| CreateTaskScreen.RemoveUndoesAdd | app/src/main/java/com/liulkovich/tasksaimer/presentation/screen/createtask/CreateTaskScreen.kt:180-184 | removing a freshly added id restores the list |
| CreateTaskScreen.Candidates | app/src/main/java/com/liulkovich/tasksaimer/presentation/screen/createtask/CreateTaskScreen.kt:300 | candidates are contacts that are not among the assigned users |
| CreateTaskScreen.ExcludeUsers | app/src/main/java/com/liulkovich/tasksaimer/presentation/screen/createtask/CreateTaskScreen.kt:300 | a user is kept iff it is in the list and not excluded |
| CreateTaskScreen.ExcludeUsersAppend | app/src/main/java/com/liulkovich/tasksaimer/presentation/screen/createtask/CreateTaskScreen.kt:300 | excluding distributes over concatenation, so candidates keep contact order |
| CreateTaskScreen.ExcludeUsersOne | app/src/main/java/com/liulkovich/tasksaimer/presentation/screen/createtask/CreateTaskScreen.kt:300 | a single user is kept exactly when it is not excluded |
| CreateTaskScreen.ExcludeUsersCount | app/src/main/java/com/liulkovich/tasksaimer/presentation/screen/createtask/CreateTaskScreen.kt:300 | an excluded user does not appear, any other appears as often as in the input |
| CreateTaskScreen.CandidatesByID | app/src/main/java/com/liulkovich/tasksaimer/presentation/screen/createtask/CreateTaskScreen.kt:300 | a contact is a candidate iff its id is not assigned |
| CreateTaskScreen.ContactsPartitioned | app/src/main/java/com/liulkovich/tasksaimer/presentation/screen/createtask/CreateTaskScreen.kt:177-300 | a contact is in exactly one of the two lists, and the two lists together show it as often as it appears among the contacts (exactly once for a contact listed once) |
| CreateTaskScreen.AddCandidateKeepsNoDuplicates | app/src/main/java/com/liulkovich/tasksaimer/presentation/screen/createtask/CreateTaskScreen.kt:180 | adding through the popup keeps the assignee list duplicate-free |
| CreateTaskScreen.MatchesSearch | app/src/main/java/com/liulkovich/tasksaimer/presentation/screen/createtask/CreateTaskScreen.kt:387-390 | the empty query matches every user, and a match needs the query to fit in the first name or the email |
| CreateTaskScreen.SearchUsers | app/src/main/java/com/liulkovich/tasksaimer/presentation/screen/createtask/CreateTaskScreen.kt:387-390 | a user is kept iff its first name or email contains the query, ignoring case |
| CreateTaskScreen.SearchUsersAppend | app/src/main/java/com/liulkovich/tasksaimer/presentation/screen/createtask/CreateTaskScreen.kt:387-390 | the search distributes over concatenation, so matches keep the users' order |
| CreateTaskScreen.SearchUsersOne | app/src/main/java/com/liulkovich/tasksaimer/presentation/screen/createtask/CreateTaskScreen.kt:387-390 | a single user is kept exactly when it matches the query |
| CreateTaskScreen.EmptySearchKeepsAll | app/src/main/java/com/liulkovich/tasksaimer/presentation/screen/createtask/CreateTaskScreen.kt:387-390 | an empty query keeps every user, in order |
| CreateTaskScreen.SearchIgnoresQueryCase | app/src/main/java/com/liulkovich/tasksaimer/presentation/screen/createtask/CreateTaskScreen.kt:387-390 | the search result does not depend on the case of the query |
| CreateTaskScreen.CreateButtonSaves | app/src/main/java/com/liulkovich/tasksaimer/presentation/screen/createtask/CreateTaskScreen.kt:200 | the Create button finishes the form iff saving is enabled and the save returns, and leaves it Loading iff saving is enabled and the save throws |
| ProfileScreen.Header | app/src/main/java/com/liulkovich/tasksaimer/presentation/screen/profile/ProfileScreen.kt:80-84 | the header shows the first name and email, or "No name" and "No email" |
| ProfileScreen.ContactNames | app/src/main/java/com/liulkovich/tasksaimer/presentation/screen/profile/ProfileScreen.kt:92 | one name per contact, in order, with "No name" for a missing first name |
| ProfileScreen.BoardSubtitle | app/src/main/java/com/liulkovich/tasksaimer/presentation/screen/profile/ProfileScreen.kt:114 | the subtitle ends with " active tasks" |
| ProfileScreen.BoardSubtitleReadsBack | app/src/main/java/com/liulkovich/tasksaimer/presentation/screen/profile/ProfileScreen.kt:114 | for a non-negative count, the text before the suffix is its digits and reads back as the count |
| ProfileScreen.OpenBoardArgs | app/src/main/java/com/liulkovich/tasksaimer/presentation/screen/profile/ProfileScreen.kt:115 | opening a board passes its id and title |
| ProfileScreen.OpenBoardRouteCarriesBoard | app/src/main/java/com/liulkovich/tasksaimer/presentation/navigation/NavGraph.kt:76-79 | the route opened for a board selects the Boards tab and carries the id and encoded title back out |
| ProfileScreen.AddContactCandidates | app/src/main/java/com/liulkovich/tasksaimer/presentation/screen/profile/ProfileScreen.kt:158 | everyone except the user whose id is the current one; everyone when that id is null |
| ProfileScreen.AddContactCandidatesAppend | app/src/main/java/com/liulkovich/tasksaimer/presentation/screen/profile/ProfileScreen.kt:158 | the filter distributes over concatenation, so candidates keep the users' order |
| ProfileScreen.AddContactCandidatesOne | app/src/main/java/com/liulkovich/tasksaimer/presentation/screen/profile/ProfileScreen.kt:158 | a single user is offered exactly when it is not the signed-in user |
| ProfileScreen.NoIdOffersEveryone | app/src/main/java/com/liulkovich/tasksaimer/presentation/screen/profile/ProfileScreen.kt:158 | with a null current id the candidates are the whole list, in order |
| ProfileScreen.PopupNeverOffersSelf | app/src/main/java/com/liulkovich/tasksaimer/presentation/screen/profile/ProfileScreen.kt:339-342 | the popup never shows the signed-in user, and an empty query shows every candidate |
| NavGraph.RoutesDistinct | app/src/main/java/com/liulkovich/tasksaimer/presentation/navigation/NavGraph.kt:162-193 | the screen routes are pairwise distinct, and so are the registered destination patterns |
| NavGraph.SplitAtFirst | app/src/main/java/com/liulkovich/tasksaimer/presentation/navigation/NavGraph.kt:188-191 | splitting at the first separator gives a separator-free prefix and the rest |
| NavGraph.SplitAtFirstJoin | app/src/main/java/com/liulkovich/tasksaimer/presentation/navigation/NavGraph.kt:179 | splitting p + c + q at c gives back p and q when p holds no c |
| NavGraph.TasksCreateRoute | app/src/main/java/com/liulkovich/tasksaimer/presentation/navigation/NavGraph.kt:179 | the built route starts with "tasks/" |
| NavGraph.CreateTaskCreateRoute | app/src/main/java/com/liulkovich/tasksaimer/presentation/navigation/NavGraph.kt:183 | the built route starts with "create_task/" |
| NavGraph.TaskDetailCreateRoute | app/src/main/java/com/liulkovich/tasksaimer/presentation/navigation/NavGraph.kt:188-191 | the built route starts with "taskDetails/" |
| NavGraph.TasksRouteArguments | app/src/main/java/com/liulkovich/tasksaimer/presentation/navigation/NavGraph.kt:179 | the board id and encoded title can be read back from the built route |
| NavGraph.CreateTaskRouteArgument | app/src/main/java/com/liulkovich/tasksaimer/presentation/navigation/NavGraph.kt:183 | the board id can be read back from the built route |
| NavGraph.TaskDetailRouteArguments | app/src/main/java/com/liulkovich/tasksaimer/presentation/navigation/NavGraph.kt:188-191 | the task id and encoded title can be read back from the built route |
| NavGraph.TasksRouteKey | app/src/main/java/com/liulkovich/tasksaimer/presentation/navigation/NavGraph.kt:178 | cutting the task-list route at "/{" gives "tasks" |
| NavGraph.CreateTaskRouteKey | app/src/main/java/com/liulkovich/tasksaimer/presentation/navigation/NavGraph.kt:182 | cutting the create-task route at "/{" gives "create_task" |
| NavGraph.TaskDetailsRouteKey | app/src/main/java/com/liulkovich/tasksaimer/presentation/navigation/NavGraph.kt:137 | cutting the details pattern at "/{" gives "taskDetails" |
| BottomBar.TabRoute | app/src/main/java/com/liulkovich/tasksaimer/presentation/components/NavigationTasksAimerBottomBar.kt:47-51 | each tab navigates to a parameterless destination that shows the bar |
| BottomBar.ShowBottomBar | app/src/main/java/com/liulkovich/tasksaimer/presentation/components/NavigationTasksAimerBottomBar.kt:31-37 | no bar before a route is known, and every destination with arguments shows it |
| BottomBar.IsSelected | app/src/main/java/com/liulkovich/tasksaimer/presentation/components/NavigationTasksAimerBottomBar.kt:54-59 | a selected tab implies a visible bar, and each tab's own route selects it |
| BottomBar.ShouldNavigate | app/src/main/java/com/liulkovich/tasksaimer/presentation/components/NavigationTasksAimerBottomBar.kt:64 | an unselected tab always navigates; a selected Profile or Notifications tab never does; the Boards tab still navigates from a screen opened from a board |
| BottomBar.AtMostOneTab | app/src/main/java/com/liulkovich/tasksaimer/presentation/components/NavigationTasksAimerBottomBar.kt:54-59 | no route selects two tabs |
| BottomBar.ClickNavigatesAwayOnly | app/src/main/java/com/liulkovich/tasksaimer/presentation/components/NavigationTasksAimerBottomBar.kt:64 | a tab's route selects it; clicking navigates only away from a different route |
| BottomBar.DestinationTabs | app/src/main/java/com/liulkovich/tasksaimer/presentation/components/NavigationTasksAimerBottomBar.kt:31-59 | the sign-in screens hide the bar; every other destination shows it with its section's tab selected; a null route hides it |
| BottomBar.CreatedRoutesSelectBoards | app/src/main/java/com/liulkovich/tasksaimer/presentation/components/NavigationTasksAimerBottomBar.kt:55 | every route the `createRoute` helpers build keeps the Boards tab selected |
| DynamicTopBar.RouteKey | app/src/main/java/com/liulkovich/tasksaimer/presentation/components/DynamicTopBar.kt:35 | the key exists iff the route does, and is a prefix of it |
| DynamicTopBar.TopBarFor | app/src/main/java/com/liulkovich/tasksaimer/presentation/components/DynamicTopBar.kt:35-136 | each bar is chosen iff the key matches it; the tasks bar shows the decoded title or "Tasks"; only a sign-in screen gets no bar |
| DynamicTopBar.BoardListBar | app/src/main/java/com/liulkovich/tasksaimer/presentation/components/DynamicTopBar.kt:37-51 | the board list gets the Boards bar |
| DynamicTopBar.CreateTaskFormBar | app/src/main/java/com/liulkovich/tasksaimer/presentation/components/DynamicTopBar.kt:80-108 | the create-task form gets the Create Task bar |
| DynamicTopBar.CreateBoardFormBar | app/src/main/java/com/liulkovich/tasksaimer/presentation/components/DynamicTopBar.kt:110-130 | the create-board form gets the New Board bar |
| DynamicTopBar.PlainRouteGetsGenericBar | app/src/main/java/com/liulkovich/tasksaimer/presentation/components/DynamicTopBar.kt:132-136 | any other parameterless route outside the sign-in screens gets the generic bar |
| DynamicTopBar.ParameterisedRouteGetsGenericBar | app/src/main/java/com/liulkovich/tasksaimer/presentation/components/DynamicTopBar.kt:132-136 | a parameterised route with an unknown prefix gets the generic bar |
| DynamicTopBar.DetailsScreenBar | app/src/main/java/com/liulkovich/tasksaimer/presentation/components/DynamicTopBar.kt:132-136 | the task-details screen and a null route get the generic bar |
| DynamicTopBar.TabScreensBar | app/src/main/java/com/liulkovich/tasksaimer/presentation/components/DynamicTopBar.kt:132-136 | the notifications and profile screens get the generic bar |
| DynamicTopBar.SignInScreensHaveNoBar | app/src/main/java/com/liulkovich/tasksaimer/presentation/components/DynamicTopBar.kt:132-136 | welcome, sign-in and sign-up get no bar |
| DynamicTopBar.TasksBarShowsBoardTitle | app/src/main/java/com/liulkovich/tasksaimer/presentation/components/DynamicTopBar.kt:53-77 | a task list opened with a title shows that title when decoding undoes encoding, else "Tasks" |
| DynamicTopBar.SaveAndClose | app/src/main/java/com/liulkovich/tasksaimer/presentation/components/DynamicTopBar.kt:99-101 | Save sends SaveTask to the form, with the save's outcome, and always pops the screen |
| DynamicTopBar.SaveClosesEvenWhenDisabled | app/src/main/java/com/liulkovich/tasksaimer/presentation/components/DynamicTopBar.kt:99-101 | the form is finished iff saving was enabled and the save returned; a disabled form is closed unsaved and unchanged; a thrown save leaves it Loading |
| DynamicFab.FabFor | app/src/main/java/com/liulkovich/tasksaimer/presentation/components/DynamicFab.kt:17-39 | "Create board" iff the key is boards, to the board form; "Create task" iff the key is tasks with a board id, to that board's form |
| DynamicFab.BoardListFab | app/src/main/java/com/liulkovich/tasksaimer/presentation/components/DynamicFab.kt:18-26 | the board list's button is "Create board" and opens the board form |
| DynamicFab.TasksKeyFab | app/src/main/java/com/liulkovich/tasksaimer/presentation/components/DynamicFab.kt:27-38 | any route keyed "tasks" has the task button, targeting the argument's board, exactly when the board argument is present |
| DynamicFab.TaskListFab | app/src/main/java/com/liulkovich/tasksaimer/presentation/components/DynamicFab.kt:27-38 | the task-list destination gets the task button for its board, none without the argument, and a null route gets none |
| DynamicFab.ParameterisedRouteHasNoFab | app/src/main/java/com/liulkovich/tasksaimer/presentation/components/DynamicFab.kt:17-39 | a parameterised route with any other prefix has no button |
| DynamicFab.PlainRouteHasNoFab | app/src/main/java/com/liulkovich/tasksaimer/presentation/components/DynamicFab.kt:17-39 | a parameterless route other than boards has no button |
| DynamicFab.FabTargetsStayInBoards | app/src/main/java/com/liulkovich/tasksaimer/presentation/components/DynamicFab.kt:20-31 | a button's target keeps the Boards tab selected, and the task form's board id reads back |
## Left out

- Firestore and Firebase Auth repositories, the use cases that wrap them, and their snapshot streams are not modelled. Each call is reduced to a success or failure outcome, or to a value passed in. For `addTaskUseCase` and `addBoardUseCase`, which run without a `try`, failure is the exception that ends the coroutine; what the coroutine scope then does with it is not modelled.
- Interleavings of coroutines are not modelled. Examples: a second command arriving while `updateTask` is suspended, and the create-task coroutine being cancelled when the top bar's Save pops the screen straight after sending `SaveTask`. Each launched block runs to completion before the next step.
- Unicode is approximated by ASCII:
  - `Char.isDigit` is the ASCII digits;
  - `isBlank` uses the ASCII and Latin-1 white space;
  - `contains(ignoreCase = true)` folds only A–Z.
- `String.format("%02d")` is modelled with ASCII digits, ignoring the device locale.
- `SimpleDateFormat` parsing and formatting, `Uri.encode`/`decode`, `System.currentTimeMillis`/`Date()`, `Calendar`, and the FirebaseAuth uid are parameters. Their own behaviour is not modelled. `DateInputInteractor.FormatFromPicker` and `DateInputInteractor.IsValid` therefore delegate to a parameter; only how the mask treats the picker's output is proved.
- TaskDetails.TaskDetailsViewModel.constructor: the `IllegalStateException` thrown when the `taskId` argument is missing is not modelled. The details route always supplies the id.
- DateInputInteractor.IsValid: a plain delegation to `SimpleDateFormat.parse`, a parameter here; its use is stated by CreateTask.DueDateSetsError.
- The `Priority` enum's declaration is not part of this model. Its constants are taken to be LOW, MEDIUM and HIGH, the names the mapper and the create-task screen use.
- The Kotlin `TaskDTO` class lacks the `ownerId` and `updatedAt` fields that `TasksMapper.toDomain` reads. The modelled record has them, and `ToDto` leaves them unset.
- CreateBoard.BoardToSave: the domain `Board` declares `id` without a default, and the Kotlin call in `SaveBoard` passes none, so that call does not compile as written. The model chooses the blank id "", which `BoardMapper.toDto` sends as null; CreateBoard.SavedBoardHasNoId rests on this choice.
- ProfileScreen.BoardSubtitle: `tasksCount` is an unbounded integer here, not a 32-bit `Int`. The `?: 0` and `?: "Untitled Board"` defaults on the profile's board cards are not modelled, because those fields are non-null in the domain `Board`.
- The profile view model and its add-contact command are not modelled. Only the popup's list logic is.
- SignIn.ResetToast: the success toast is the prefix followed by the address. That is what the trimmed multi-line template yields for an address with no line break. `trimIndent` runs after the address is interpolated, so an address containing a line break would be trimmed too; `trimIndent` itself is not modelled.
- Compose layout, colours other than the notification icon backgrounds and card palettes, and UI-local state (search text, popup visibility, selected filter index) are not modelled. UI-local state appears only as inputs.
- TaskDueTimeTextField.DueTimeField.PickerInitialTime: the picker dialog is not modelled. Only the hour and minute it opens on are.
