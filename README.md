# School portal: verified model of the decision logic

This project models the decision logic of a school portal mobile app for students and parents. It is written in Dafny and proves properties of that logic. The app itself is mostly screen layout over fixed demo data. The logic modelled here is:

- **Authentication provider**: the demo account tables, and the credential match that `login` runs against them (identifier compared up to case, password compared exactly, first match wins). Also the in-memory session it sets (`user`, `userRole`), `logout`, and the lookup of a parent's children. Modules: `Auth`, built on `Seqs` (filter, find, count) and `Wrappers` (Option).
- **Parent sign-in form**: the blank-field check, then the login attempt, then one of three outcomes: navigate, show the failure message, or show the generic error. `isLoading` is lowered on every path that made an attempt. Also the demo "Copy & Fill". Module: `ParentLogin`.
- **Theme provider**: the three-valued mode, the validation of the stored mode when it is loaded, and the derived dark flag and palette. Also `setThemeMode`, `toggleTheme`, and the gate that renders nothing until loading is done. Module: `Theme`.
- **Currency provider**: the table of seven currencies, `setCurrency`, conversion from US dollars, and the branching of `formatAmount` and `formatAmountShort`. That branching covers the symbol, the separator, how the number is rendered and the K/M suffix. Module: `Currency`.
- **Parent fee screen**: the per-child fee list, the pending filter, and the selection list the checkboxes toggle. Also the selected and outstanding totals, the next-due-date rule, the status badges, the reset on switching child, and the pay-button enablement. Module: `Fees`.
- **Student results screen**: the all/passed/failed filter, the score totals, the performance label, the grade colours, whose data is shown, and the GPA fallback. Module: `Results`.
- **Parent notifications screen**: the all/unread tabs, the unread count behind the badge and the "Mark all as read" row, each tab's empty state, and the per-type styles. Module: `Notifications`.
- **Parent children screen and parent dashboard**: the attendance tiers at 90 and 75 shared by the colour, text and style helpers, the `attendance || 0` default and the check-icon rule. Module `Attendance` holds these. Also the selected child or empty state, the per-child defaults and the grade badge (module `Children`). Also the pending-fee estimate and the greeting (module `Dashboard`).

Where the source changes state step by step, the model is a class whose methods have `modifies` clauses: the session (`Auth.Session`), the sign-in form (`ParentLogin.SignInForm`), the theme state (`Theme.ThemeState`), the currency state (`Currency.CurrencyState`) and the fee screen (`Fees.FeeScreen`). Everything else is a function over values.

The model takes several things as inputs, because none of them can be computed inside it:

- what the platform reports: the operating system's colour scheme, and what the storage read returned;
- how an awaited `login` call ended.

A navigation is recorded as the route appended to a list.

There is no token, storage or network call in the authentication code: `login` searches a constant table in memory, and `logout` clears two state fields (`context/AuthContext.tsx:103-129`). Likewise, the selected currency is not persisted by the code, and the model does not persist it either.

## Model

| member | source | states |
|---|---|---|
| Seqs.Filter | context/AuthContext.tsx:72-74 | `filter`: the result holds exactly the elements of the input that pass the test, and is never longer than the input |
| Seqs.FilterConcat | app/student/results.tsx:53-57 | filtering never reorders: filtering a concatenation is concatenating the filtered parts |
| Seqs.FilterKeepsAll | app/student/results.tsx:56 | a filter that every element passes returns the list unchanged |
| Seqs.Count | app/parent/notifications.tsx:120 | the number of elements that pass a test is at most the length |
| Seqs.FilterLength | app/parent/notifications.tsx:120 | the length of a filtered list is the number of elements that pass |
| Seqs.FilterPartition | app/student/results.tsx:24 | a test and its complement split a list: the two filtered lengths add up to its length |
| Seqs.FindIndex | context/AuthContext.tsx:112-114 | `find` as an index: the element at the index found passes, no earlier one does, and none passes when nothing is found |
| Seqs.Find | app/student/results.tsx:36 | `find` returns an element exactly when one passes the test; what it returns is the element at the first index that passes, so no earlier element passes |
| Seqs.FilterKeepsOrder | context/AuthContext.tsx:72-74 | `filter` keeps the input's order: of two kept elements, the earlier comes from an earlier position of the input |
| Seqs.FilterHeadIsFirst | app/parent/fees.tsx:200-205 | `xs.filter(p)[0]` exists exactly when `find` succeeds, and it is the first element that passes |
| Auth.Accounts | context/AuthContext.tsx:4-68 | the table `login` searches is non-empty and every record in it carries the requested role |
| Auth.FindAccount | context/AuthContext.tsx:111-114 | a record is found exactly when some record of the role's table matches the identifier by e-mail or id up to case and matches the password exactly; the one found is the first match in table order and has the requested role |
| Auth.IdentifierCaseInsensitivePasswordNot | context/AuthContext.tsx:113 | an upper-cased e-mail or a lower-case id still signs in; an upper-cased password does not |
| Auth.ChildrenData | context/AuthContext.tsx:71-75 | `getChildrenData` returns exactly the fixture students whose id is listed; unknown ids are ignored, and the result is never longer than the student table |
| Auth.ChildrenDataInTableOrder | context/AuthContext.tsx:71-75 | `getChildrenData` lists the students in the student table's order |
| Auth.ChildrenDataIgnoresIdOrder | context/AuthContext.tsx:71-75 | ids asked for in reverse still come back in table order: `["STU002", "STU001"]` gives Alex, then Emma |
| Auth.LinkedChildren | app/parent/index.tsx:28-29 | the children shown are exactly the fixture students listed in the signed-in user's `children`: every one shown is listed, and every listed fixture student is shown; none when nobody is signed in |
| Auth.FirstParentChildren | context/AuthContext.tsx:54 | the first demo parent is linked to all three students, in table order |
| Auth.SecondParentChildren | context/AuthContext.tsx:64 | the second demo parent is linked to Emma alone |
| Auth.Matches | context/AuthContext.tsx:112-114 | the test `login` hands to `find`; its meaning is stated by `Auth.FindAccount` and `Auth.IdentifierCaseInsensitivePasswordNot` |
| Auth.Session.IsAuthenticated | context/AuthContext.tsx:135 | `!!user`; `Auth.Session.constructor` and `Auth.Session.Logout` state it is false, `Auth.Session.Login` that it follows a match |
| Auth.Session.constructor | context/AuthContext.tsx:100-101 | the session starts with no user and no role, not authenticated |
| Auth.Session.Login | context/AuthContext.tsx:103-124 | success exactly when a record matches. On success `user` is the matched record without its password, `userRole` is the requested role (which the user's role equals), and there is no error. On failure, `user` and `userRole` are unchanged and the error is exactly "Invalid email/ID or password" |
| Auth.Session.Logout | context/AuthContext.tsx:126-129 | afterwards there is no user and no role, so `isAuthenticated` (line 135) is false |
| ParentLogin.TrimStartEmpty | app/login/parent.tsx:32 | removing leading white space leaves nothing exactly when the field is all white space; otherwise the result starts with a non-blank character |
| ParentLogin.TrimEndEmpty | app/login/parent.tsx:32 | removing trailing white space leaves nothing exactly when the field is all white space |
| ParentLogin.Trim | app/login/parent.tsx:32 | `trim`: `!x.trim()` holds exactly when the field contains only white space |
| ParentLogin.FailureMessage | app/login/parent.tsx:45 | `result.error \|\| 'Login failed'`: a non-empty error is shown as is, otherwise "Login failed"; never empty |
| ParentLogin.SignInForm.constructor | app/login/parent.tsx:25-29 | the form starts with empty fields, no error, not loading and no navigation |
| ParentLogin.SignInForm.Begin | app/login/parent.tsx:32-38 | an attempt is made exactly when both trimmed fields are non-empty. Without one, the error is "Please enter both email and password" and `isLoading` is unchanged. With one, the error is cleared and `isLoading` is raised |
| ParentLogin.SignInForm.Finish | app/login/parent.tsx:40-51 | success appends exactly one navigation, to `/parent`. Failure shows the failure message. A throw shows "An error occurred. Please try again.". `isLoading` is false afterwards on every path |
| ParentLogin.SignInForm.HandleSignIn | app/login/parent.tsx:31-52 | the whole handler. Blank fields: the empty-fields error, with `login` not called (session, navigation and `isLoading` unchanged). Otherwise `login` runs with the untrimmed fields and the parent role. A match signs in and navigates to `/parent`, a miss shows "Invalid email/ID or password", a throw shows the generic error. `isLoading` ends false |
| ParentLogin.SignInForm.FillDemoCredentials | app/login/parent.tsx:63-70 | "Copy & Fill" sets the e-mail and password to the first demo parent's |
| ParentLogin.DemoCredentialsSignIn | app/login/parent.tsx:63-70 | the filled demo credentials pass the blank check and sign in as the first demo parent |
| Theme.ParseMode | context/ThemeContext.tsx:165 | a stored value is adopted exactly when it is "light", "dark" or "system", and then it names the mode adopted |
| Theme.ParseModeName | context/ThemeContext.tsx:178-184 | what `setThemeMode` writes is adopted again by the next load |
| Theme.IsDark | context/ThemeContext.tsx:188 | `isDark`; `Theme.PaletteOf`, `Theme.ToggleTarget` and `Theme.ToggleTwice` state what depends on it |
| Theme.PaletteOf | context/ThemeContext.tsx:191 | the dark palette exactly when `isDark` |
| Theme.ToggleTarget | context/ThemeContext.tsx:194-196 | the mode `toggleTheme` sets is never `system` and flips `isDark`, for any system scheme |
| Theme.ToggleExplicitIgnoresScheme | context/ThemeContext.tsx:188 | from an explicit mode, the toggle does not depend on the system scheme |
| Theme.ToggleTwice | context/ThemeContext.tsx:194-196 | two toggles restore `isDark`; they restore the mode itself exactly when it was not `system` |
| Theme.ThemeState.constructor | context/ThemeContext.tsx:157-158 | the mode starts as `system`, not yet loaded |
| Theme.ThemeState.LoadTheme | context/ThemeContext.tsx:161-175 | a valid stored mode is adopted. A missing or invalid value, or a failed read, leaves the mode as it was. Loading is marked done on every path |
| Theme.ThemeState.SetThemeMode | context/ThemeContext.tsx:178-185 | the mode becomes the one given whether or not persisting succeeds; the string written parses back to it |
| Theme.ThemeState.ToggleTheme | context/ThemeContext.tsx:194-196 | the mode becomes the explicit opposite of what is shown: never `system`, `isDark` negated, and persisted |
| Theme.ThemeState.Provided | context/ThemeContext.tsx:187-207 | nothing is rendered until loading is done; then the value carries the mode, `isDark` derived from mode and scheme, and the matching palette |
| Currency.Lookup | context/CurrencyContext.tsx:12-20 | every table entry's code is its key; every rate is positive and every symbol non-empty |
| Currency.AvailableCurrencies | context/CurrencyContext.tsx:79 | exactly seven currencies, every table entry among them, codes all distinct |
| Currency.Convert | context/CurrencyContext.tsx:40-42 | at a positive rate the converted amount has the sign of the dollar amount; a rate of 1 leaves it unchanged |
| Currency.ConvertUSDIsIdentity | context/CurrencyContext.tsx:14 | converting to US dollars leaves the amount unchanged |
| Currency.ConvertMonotone | context/CurrencyContext.tsx:40-42 | conversion never turns a larger amount into a smaller one, since every rate is positive |
| Currency.ConvertRecoverable | context/CurrencyContext.tsx:40-45 | the dollar amount is recovered from any converted amount: the selection changes only the rate used for display |
| Currency.FormatAmount | context/CurrencyContext.tsx:44-60 | the current symbol, then a space exactly for PKR and INR, then the converted amount with 0 decimals for PKR and INR and 2 otherwise; no suffix |
| Currency.FormatAmountShort | context/CurrencyContext.tsx:62-77 | suffix "M" exactly at 1,000,000 or more, "K" exactly from 1000 below that, none otherwise. The value is divided accordingly with one decimal. Below 1000, PKR and INR get a space and the rounded amount, the others two decimals |
| Currency.FormatsStartWithSymbol | context/CurrencyContext.tsx:44-77 | both formats begin with the current currency's symbol |
| Currency.ShortSuffixMonotone | context/CurrencyContext.tsx:65-70 | a larger amount never gets a smaller magnitude suffix |
| Currency.CurrencyState.constructor | context/CurrencyContext.tsx:34 | the selection starts at PKR |
| Currency.CurrencyState.SetCurrency | context/CurrencyContext.tsx:36-38 | the current currency becomes the table entry for the code, so its code is the code given; the result depends on the code alone, so setting twice is setting once |
| Fees.GetFeeData | app/parent/fees.tsx:44-89 | the base list with the same length and, per index, the same fee except for the amount, scaled by 0.9 for STU002 and 0.8 for STU003; unchanged for any other id |
| Fees.FeesFor | app/parent/fees.tsx:110-111 | the selected child's fees, or none when no child is at the index |
| Fees.PendingFees | app/parent/fees.tsx:112 | exactly the fees whose status is not paid |
| Fees.PendingFeesKeepOrder | app/parent/fees.tsx:112 | the pending list keeps the fees in their order: filtering two halves and joining is filtering the whole |
| Fees.FixtureFeesAllPending | app/parent/fees.tsx:45-74 | no demo fee is paid, so every child's pending list is the whole list |
| Fees.Toggled | app/parent/fees.tsx:186-192 | the toggled id is in the selection exactly when it was not (a present id loses every occurrence); every other id keeps its membership |
| Fees.ToggleTwiceRestores | app/parent/fees.tsx:186-192 | toggling an absent id twice restores the selection exactly |
| Fees.SumNonNegative | app/parent/fees.tsx:198 | a sum of non-negative amounts is non-negative |
| Fees.SumFilterAtMost | app/parent/fees.tsx:194-198 | dropping fees with non-negative amounts never raises the sum |
| Fees.TotalOutstanding | app/parent/fees.tsx:198 | the outstanding total is never negative when no amount is |
| Fees.TotalSelected | app/parent/fees.tsx:194-196 | with non-negative amounts, 0 ≤ `totalSelected` ≤ `totalOutstanding` |
| Fees.AllSelectedIsOutstanding | app/parent/fees.tsx:194-198 | when every pending fee is selected, the selected total is the outstanding total |
| Fees.InitialSelectionPicksFirstTwo | app/parent/fees.tsx:41 | the initial selection `['1','2']` totals the first two fees of a list with ids 1, 2, 3 |
| Fees.ResetSelectionTotal | app/parent/fees.tsx:110-111 | after choosing a child (lines 236-239), the selected total of that child's pending fees is 950 dollars scaled by the child's factor, and 0 when no child is at the index |
| Fees.NextDueDate | app/parent/fees.tsx:200-206 | the date shown is some pending fee's due date, or "N/A"; `Fees.NextDueDatePriority` states which one |
| Fees.NextDueDatePriority | app/parent/fees.tsx:200-206 | the next due date is the first overdue fee's. Failing that, the first due-soon fee's. Failing that, the first pending fee's (if not empty). Otherwise "N/A" |
| Fees.FixtureNextDueDate | app/parent/fees.tsx:200-206 | for every child the next due date is "Oct 15", the overdue tuition fee |
| Fees.GetStatusStyle | app/parent/fees.tsx:114-127 | the caption is "Unknown" exactly for a string that is not one of the four statuses |
| Fees.StatusLabelsDistinct | app/parent/fees.tsx:114-127 | each status has its own badge caption; only an unknown status string is captioned "Unknown" |
| Fees.FeeScreen.constructor | app/parent/fees.tsx:39-41 | the screen starts on the first child, the pending tab and the selection `['1','2']` |
| Fees.FeeScreen.PayEnabled | app/parent/fees.tsx:412-414 | the pay button is enabled when the selection is not empty; `Fees.FeeScreen.ToggleFeeSelection` and `Fees.FeeScreen.SelectChild` state when it holds |
| Fees.FeeScreen.ToggleFeeSelection | app/parent/fees.tsx:186-192 | the selection becomes its toggled value; an id that was absent is now present and the pay button (lines 412-414) is enabled |
| Fees.FeeScreen.SelectChild | app/parent/fees.tsx:236-239 | the index is set, the selection resets to `['1','2']` and the pay button is enabled |
| Fees.FeeScreen.SelectTab | app/parent/fees.tsx:295-303 | the tab becomes the one pressed |
| Results.FilteredResults | app/student/results.tsx:53-57 | results are drawn from the list; "passed" keeps exactly the passing rows and "failed" exactly the failing ones |
| Results.AllResultsIsWhole | app/student/results.tsx:56 | the "all" tab shows the whole list in order |
| Results.FilteredResultsConcat | app/student/results.tsx:53-57 | every tab keeps the rows in list order |
| Results.PassedFailedPartition | app/student/results.tsx:53-57 | the passed and failed tabs together show every row once: their lengths add up to the total |
| Results.TotalScore | app/student/results.tsx:59 | the total score is never negative when no score is |
| Results.MaxTotalScore | app/student/results.tsx:60 | 100 per subject when every subject is marked out of 100, so 500 for the screen's five subjects |
| Results.TotalWithinMax | app/student/results.tsx:59-60 | when no score exceeds its maximum, the total score does not exceed the maximum total |
| Results.PerformanceLabel | app/student/results.tsx:64-70 | "Excellent" exactly from 90, "Very Good" from 80 below 90, "Good" from 70, "Satisfactory" from 60, "Needs Improvement" below 60 |
| Results.PerformanceMonotone | app/student/results.tsx:64-70 | a higher percent never gets a worse label |
| Results.FixtureScore | app/student/results.tsx:45-62 | the demo results total 388 of 500, 77.6 percent, labelled "Good" |
| Results.FixtureFailedOnce | app/student/results.tsx:45-57 | the demo results have one failed and four passed subjects |
| Results.GradeColor | app/student/results.tsx:72-78 | blue exactly for an A grade; the fallback red exactly for a grade starting with none of A to D |
| Results.GradeBg | app/student/results.tsx:80-86 | light blue exactly for an A grade; light red exactly for a D grade or one starting with none of A to D |
| Results.GradeStyleByFirstLetter | app/student/results.tsx:72-86 | colour and background depend only on the grade's first letter |
| Results.GradeStyleDistinct | app/student/results.tsx:72-86 | A, B, C, D and the fallback have five different colours; D shares its background with the fallback but not its colour |
| Results.StatusBadgeOf | app/student/results.tsx:205-218 | the row badge reads "PASS" or "FAIL", the upper-cased status |
| Results.StudentData | app/student/results.tsx:34-37 | with a non-empty student id: the fixture student with that id, or nothing when no student has it. Otherwise the signed-in user |
| Results.ParentViewShowsChild | app/student/results.tsx:34-37 | opened for a fixture student's id, the screen shows that student's record, whoever is signed in |
| Results.OverallGPA | app/student/results.tsx:61 | `gpa \|\| 3.8`: a missing or zero GPA shows as 3.8, any other as itself; never zero |
| Results.DisplayName | app/student/results.tsx:108 | the name shown is the record's non-empty name; with no record or an empty name, "Student" |
| Results.DisplayClass | app/student/results.tsx:109 | the class shown is the record's non-empty class; with no record, or a missing or empty class, "10-B" |
| Results.ParentViewShowsChildGPA | app/student/results.tsx:61 | opened for a fixture student, the card shows that student's own GPA, name and class |
| Notifications.GetNotificationStyle | app/parent/notifications.tsx:97-114 | the fallback icon exactly for a string that names none of the six types |
| Notifications.NotificationIconsDistinct | app/parent/notifications.tsx:97-114 | the six types have six different icons, none of them the fallback; any other string gets the fallback style with the "notifications" icon |
| Notifications.Filtered | app/parent/notifications.tsx:116-118 | the all tab shows the whole list; the unread tab keeps exactly the unread notifications |
| Notifications.UnreadCount | app/parent/notifications.tsx:120 | the unread count never exceeds the list's length |
| Notifications.UnreadCountMatchesTab | app/parent/notifications.tsx:116-120 | the count is the number of unread notifications and the length of the unread tab |
| Notifications.UnreadTabKeepsOrder | app/parent/notifications.tsx:116-118 | the unread tab keeps list order |
| Notifications.UnreadControlsIffSomeUnread | app/parent/notifications.tsx:154 | the badge and "Mark all as read" (line 167) show exactly when some notification is unread |
| Notifications.EmptyState | app/parent/notifications.tsx:175 | the empty state shows exactly when the active tab's list is empty, with the subtitle of that tab (lines 231-233) |
| Notifications.EmptyStateIff | app/parent/notifications.tsx:175 | the unread tab is empty exactly when everything is read, which is exactly when the badge is hidden; the all tab is empty only for an empty list |
| Notifications.CardOf | app/parent/notifications.tsx:184-218 | a card has the unread dot exactly when unread, a child badge exactly for a non-empty child, an action button exactly for a non-empty label, and its type's style |
| Notifications.UnreadPrefix | app/parent/notifications.tsx:116-118 | when the unread notifications are exactly a prefix, the unread tab shows that prefix |
| Notifications.FixtureUnread | app/parent/notifications.tsx:28-120 | in the demo list the first three are unread: the badge reads 3 and the unread tab shows them |
| Attendance.TierOf | app/parent/children.tsx:68-84 | the tiers: high exactly from 90, middle from 75 below 90, low below 75 |
| Attendance.TierMonotone | app/parent/children.tsx:68-84 | higher attendance never falls in a lower tier |
| Attendance.PercentOrZero | app/parent/children.tsx:103 | `attendance \|\| 0`: a missing percentage counts as 0, a present one as itself |
| Attendance.CheckIconIffNotLow | app/parent/index.tsx:186 | the check icon shows exactly when the defaulted percentage is in the upper two tiers; otherwise the alert icon |
| Children.AttendanceColor | app/parent/children.tsx:68-72 | green exactly in the high tier, amber in the middle one, red in the low one |
| Children.StatusText | app/parent/children.tsx:74-78 | "Excellent Attendance", "Good Standing" and "Needs Improvement" exactly in the three tiers |
| Children.GetStatusStyle | app/parent/children.tsx:80-84 | green, amber and red badge colours exactly in the three tiers |
| Children.HelpersShareTiers | app/parent/children.tsx:68-84 | two percentages get the same colour, the same text and the same style exactly when they share a tier |
| Children.GetChildExtras | app/parent/children.tsx:34-41 | zeros and no subjects for an id that is not a fixture student's (see "## Left out" for inherited property names); four subjects and some pending work for each fixture student |
| Children.GetRecentGrades | app/parent/children.tsx:44-66 | no grades for an id that is not a fixture student's; four for each fixture student |
| Children.LinkedChildrenHaveDetails | app/parent/children.tsx:101-102 | every child a parent can be linked to has four subjects and four recent grades |
| Children.GradeBadge | app/parent/children.tsx:277-281 | the badge is green exactly when the grade starts with "A", amber otherwise |
| Children.CountLabel | app/parent/children.tsx:110 | "child" exactly for one child, "children" otherwise |
| Children.GpaShown | app/parent/children.tsx:194 | `gpa \|\| 0`: a missing GPA shows as 0 |
| Children.SelectedChild | app/parent/children.tsx:31 | nothing exactly when the index is outside the list, else the child at the index |
| Children.ScreenOf | app/parent/children.tsx:86-103 | the empty state shows exactly when no linked child is at the selected index. Otherwise the detail shows that child, who is in the user's `children` list. Its status text, status style and progress colour are those of the defaulted attendance (`attendance \|\| 0`, lines 103 and 175-188), the check icon shows exactly when that is not in the low tier, the count label is that of the number of linked children, and the extras, grades and GPA are the child's |
| Children.NoChildrenShowsEmptyState | app/parent/children.tsx:86-99 | with nobody signed in, or a user with no children, every index shows the empty state |
| Children.FirstParentOpensOnAlex | app/parent/children.tsx:30-31 | the first demo parent starts on Alex: "3 children", four grades, "Good Standing" at 85 percent, check icon |
| Dashboard.TotalPendingFees | app/parent/index.tsx:32 | 450 dollars per linked child: between 0 and 1350, and 0 with nobody signed in |
| Dashboard.FixturePendingFees | app/parent/index.tsx:32 | the demo parents owe 1350 and 450 dollars |
| Dashboard.AttendanceColor | app/parent/index.tsx:84-88 | green, amber and red exactly in the three tiers |
| Dashboard.StatusText | app/parent/index.tsx:90-94 | "Excellent", "Good" and "Needs Attention" exactly in the three tiers |
| Dashboard.StatusColor | app/parent/index.tsx:96-100 | green, amber and red badge colours exactly in the three tiers |
| Dashboard.AgreesWithChildrenScreen | app/parent/index.tsx:84-100 | the dashboard's colour and status colour equal the children screen's for every percentage, and its texts name the same tiers |
| Dashboard.CardOf | app/parent/index.tsx:145-191 | a child's card reads the defaulted percentage: its progress colour, status colour and status text are those of that percentage. The check icon shows exactly in the upper two tiers, which is exactly when the progress colour is not red and the text is not "Needs Attention" |
| Dashboard.UserName | app/parent/index.tsx:110 | the greeting shows the user's non-empty name, else "Parent" |

## Left out

- Digit rendering: `toLocaleString`, `toFixed` and the locale's grouping are platform number formatting. `Currency.FormatAmount` and `Currency.FormatAmountShort` return the symbol, separator, value, the rendering requested and the suffix, not the final text. `Currency.Text` joins them around digits supplied from outside.
- Floating point: amounts, rates and GPAs are exact reals. The source's binary floating point (for example `800 * 0.9`) can differ from them in the last digits.
- Results.PerformancePercent: requires a non-zero maximum total. The screen's constant list makes it 500, and the source's division by zero (which gives NaN or Infinity) is not modelled.
- Auth.Lower: `toLowerCase` is modelled on ASCII letters only. The demo identifiers are ASCII.
- Auth.Session.Login: the one-second simulated delay and the asynchronous interleavings are left out; each call is atomic.
- Theme.ThemeState.LoadTheme and Theme.ThemeState.SetThemeMode: AsyncStorage is foreign I/O. The stored value comes in as a parameter, and the write is returned as the string the provider asks to persist. A failed write is not represented because it changes nothing.
- ParentLogin.SignInForm.HandleSignIn: a throwing `login` is chosen by a parameter. The real `login` never throws.
- Navigation is reduced to the list of routes the sign-in form replaced itself with. `router.back`, `router.push` and the other screens' links are left out.
- Alerts, "Forgot Password" and "Contact Admin": these are platform dialogs with no state.
- Layout, styles, the fee-type icon and colour lookups (`app/parent/fees.tsx:129-184`), the payment-history constant and its list, and the dashboard's fixed activity and quick-action lists: these are view content.
- The present and absent day estimates (`app/parent/children.tsx:303,310`): these are digit-level rounding of display figures.
- The exam selector on the results screen: it is a constant list with no behaviour.
- `components/CircularProgress.tsx`: SVG geometry.
- The other student screens, the profile screens, the payments screen and the layouts: these are static renderers and wiring.
- Attendance percentages and scores are integers in the model (`Attendance.TierOf`, `Results.SubjectResult`), where the source types them as `number`. A fractional value such as 89.5 cannot be represented; every demo value is a whole number.
- Children.GetChildExtras: the source indexes an object literal by the id, so an id that names an inherited `Object.prototype` member (`"constructor"`, `"toString"`) returns that member rather than the default. The model returns the default for every id that is not a fixture student's. The screen only passes ids of fixture students, so this case is never reached.
- Children.GetRecentGrades: the same object-literal lookup; for an inherited property name the source returns that member rather than `[]`, which the model does not represent. Never reached from the screen, for the same reason.
- The `avatar` field of the demo records: it is always null and never read.
