# Kadirzhanov Auto Hub in Dafny

A model of the logic of a car-dealership web application: a public car
catalogue with a "turnkey price" calculator, customer leads that managers
claim and work through, customer reviews that an administrator moderates, a
points leaderboard for the managers, an analytics page, client sign-up and the
server function that lets an administrator create manager accounts.

The hosted database is modelled as in-memory tables. Each table is a class
holding a `seq` of row records (`Leads.LeadTable`, `Cars.CarTable`,
`Reviews.ReviewTable`, `CreateManager.Backend`). A query is a function over
the rows. An insert, update or delete is a method that reassigns the rows.
A page whose state changes through setters is a class with those fields
(`AdminCars.AdminCarsPage`, `RateLead.RatePage`,
`PriceCalculator.Calculator`, `ClientRegister.RegisterPage`). The `reduce`
loops that fill dictionaries are methods with `while` loops. Each such loop
is proved against a function giving the dictionary after a prefix of the
rows.

Values that come from outside are parameters: store-generated ids and
timestamps, the current year, `confirm()` answers, and the answers of the
auth service (token claims, `signUp`, `createUser`, `deleteUser`).

Modules, one per source file, plus three shared ones:

- `Seqs`, `Ordering`: JavaScript's `filter`, `maybeSingle`/`single`, falsy tests, and the store's `order(..., { ascending: false })`.
- `Text`: trim, ASCII lower-casing, substring search, split and join.
- `Domain`: the row records and enums of the database schema.
- `Leads`, `ManagerLeads`, `Reviews`, `RateLead`, `PriceCalculator`, `Cars`, `AdminCars`, `ManagerScores`, `AdminManagers`, `AdminAnalytics`, `ClientRegister`, `CreateManager`.

## Model

| member | source | states |
|---|---|---|
| Leads.ListLeads | src/hooks/useLeads.tsx:5-25 | The result is newest first. With a (truthy) manager id it holds exactly the leads assigned to that manager plus the unassigned ones. Without one it is a permutation of all leads. |
| Leads.ApplyLeadPatch | src/hooks/useLeads.tsx:58-64 | An update keeps id, `created_at` and rating token. Status and assigned manager change only when the patch supplies them. |
| Leads.PatchIdempotent | src/hooks/useLeads.tsx:58-64 | Sending the same partial update twice gives the same row as sending it once. |
| Leads.NoChangeIsIdentity | src/hooks/useLeads.tsx:58-64 | An empty partial update leaves the row as it was. |
| Leads.LeadTable.Insert | src/hooks/useLeads.tsx:27-47 | A fresh id appends exactly the row built from the form fields and the store's defaults, and returns it. A clashing id is an error that changes nothing. Ids stay unique. |
| Leads.LeadTable.Update | src/hooks/useLeads.tsx:54-73 | Only rows with that id change, in the supplied columns only. The call succeeds iff such a row exists, and it returns the updated row. |
| Leads.StatsPartition | src/hooks/useLeads.tsx:85-91 | `new + inProgress + closed == total`. |
| Leads.StatsBuckets | src/hooks/useLeads.tsx:85-91 | `total` is the number of rows. `inProgress` is the contacted count plus the negotiating count. `won <= closed`. |
| Leads.LeadByToken | src/hooks/useLeads.tsx:98-122 | No (or empty) token gives null. A lead that is found carries the token. Null means no lead has it. An error arises only when several leads share it. |
| Leads.TokenFindsItsLead | src/hooks/useLeads.tsx:105-115 | A token held by one lead finds exactly that lead. |
| ManagerLeads.NewLeads | src/pages/manager/ManagerLeads.tsx:20 | Exactly the leads with no assigned manager. |
| ManagerLeads.MyLeads | src/pages/manager/ManagerLeads.tsx:21 | Exactly the leads assigned to the signed-in user, none without a user, and none of them among the new leads. |
| ManagerLeads.StatusOptions | src/pages/manager/ManagerLeads.tsx:104-108 | The select offers a status iff it is not `new`. |
| ManagerLeads.StatusOptionsOrder | src/pages/manager/ManagerLeads.tsx:104-108 | The options follow the key order of `LEAD_STATUSES`. |
| ManagerLeads.ClaimLead | src/pages/manager/ManagerLeads.tsx:23-35 | No user changes nothing. Otherwise the lead with that id gets the user as manager and status `contacted`, whoever held it before, and every other row is unchanged. The success toast appears iff the id exists. |
| ManagerLeads.ChangeStatus | src/pages/manager/ManagerLeads.tsx:37-44 | Only the status of the lead with that id changes. The toast tells success iff the id exists. |
| ManagerLeads.ManagerNeverSetsNew | src/pages/manager/ManagerLeads.tsx:26-39 | A claim, or a status picked from the select, never leaves a lead `new`. |
| ManagerLeads.LastClaimWins | src/pages/manager/ManagerLeads.tsx:26-30 | Claims do not compare and swap: the second claim on a lead replaces the first. |
| ManagerLeads.BoardOf | src/pages/manager/ManagerLeads.tsx:136-166 | The claim button appears exactly on unassigned leads. The status select appears exactly on the user's own leads. |
| Reviews.ReviewTable.Insert | src/pages/RateLead.tsx:68-79 | A fresh id appends exactly the row built from the payload. A clashing id is an error that changes nothing. |
| Reviews.ReviewTable.SetApproval | src/pages/admin/AdminReviews.tsx:56-62 | Unless the store refuses, only `is_approved` of the rows with that id changes, and an unknown id is not an error. A refusal is returned as the error and changes nothing. |
| Reviews.ReviewTable.Delete | src/pages/admin/AdminReviews.tsx:73-79 | Unless the store refuses, exactly the rows with that id go. The others stay, and an unknown id removes nothing. A refusal is returned as the error and changes nothing. |
| Reviews.AllReviews | src/pages/admin/AdminReviews.tsx:16-31 | The listing is a newest-first permutation of the table. |
| Reviews.Pending | src/pages/admin/AdminReviews.tsx:89 | Exactly the reviews whose flag is not `true`, `null` included. |
| Reviews.Approved | src/pages/admin/AdminReviews.tsx:90 | Exactly the reviews whose flag is `true`. |
| Reviews.ModerationPartition | src/pages/admin/AdminReviews.tsx:89-90 | The two lists split the listing as multisets, so their sizes add up to the total. |
| Reviews.ModerationListsNewestFirst | src/pages/admin/AdminReviews.tsx:89-90 | Both lists keep the newest-first order. |
| Reviews.PendingSectionActions | src/pages/admin/AdminReviews.tsx:151-160 | A pending-section card shows a pending review of the table, with approve, reject and delete. |
| Reviews.PublishedSectionActions | src/pages/admin/AdminReviews.tsx:181-190 | A published-section card shows an approved review of the table, with delete only. |
| Reviews.PageCounters | src/pages/admin/AdminReviews.tsx:104-133 | The pending and published counters add up to the total counter, which is the number of reviews. |
| Reviews.EveryReviewShown | src/pages/admin/AdminReviews.tsx:141-200 | Every review gets a card in the section its flag selects. |
| Reviews.Moderate | src/pages/admin/AdminReviews.tsx:55-70 | Approve or reject sets the flag of that review only, with toast "Отзыв одобрен" or "Отзыв отклонён". A refused update changes nothing and shows "Ошибка при обновлении отзыва". |
| Reviews.Remove | src/pages/admin/AdminReviews.tsx:72-87 | Delete removes exactly the rows with that id, with toast "Отзыв удалён". A refused delete changes nothing and shows "Ошибка при удалении отзыва". |
| Reviews.ApprovalDecidesSection | src/pages/admin/AdminReviews.tsx:59-90 | After a moderation the review is published iff it was approved. Rejecting keeps it pending. |
| RateLead.ManagerName | src/pages/RateLead.tsx:36-46 | No assigned manager, or anything but one profile row, gives no name. A name shown is the manager's own profile name. |
| RateLead.UniqueProfileNamed | src/pages/RateLead.tsx:39-45 | A manager with a single profile row is shown under that row's name. |
| RateLead.FetchRateLead | src/pages/RateLead.tsx:21-62 | No token gives null. The lookup fails iff the token lookup fails and is null iff it is null. Found data carries the lead with that token, its manager's name, and `alreadyReviewed` iff the lead has exactly one review. |
| RateLead.View | src/pages/RateLead.tsx:88-164 | Each view has its exact condition. No token gives the invalid-link view. A pending lookup gives the spinner. A settled lookup with no lead gives "not found". A lead with no manager gives "being processed". A lead with a manager that was reviewed or just rated gives the thank-you view. Otherwise the form shows, with a non-empty manager name when a name is shown. |
| RateLead.SubmittedHidesForm | src/pages/RateLead.tsx:138-154 | After a submission the form is never shown. |
| RateLead.ReviewPayload | src/pages/RateLead.tsx:68-77 | The review carries the lead's id, its manager and its customer name, the chosen rating, `is_approved = false`, and a null comment iff the comment is empty. |
| RateLead.SubmittedReviewAwaitsModeration | src/pages/RateLead.tsx:76 | A submitted review is pending, not published. |
| RateLead.RatePage.constructor | src/pages/RateLead.tsx:15-18 | The page opens with no rating, no hover, an empty comment and nothing submitted. |
| RateLead.RatePage.ClickStar | src/pages/RateLead.tsx:177 | Clicking star 1 to 5 sets the rating, which enables the submit button. |
| RateLead.RatePage.HoverStar | src/pages/RateLead.tsx:175-176 | Hovering sets only the hovered star. |
| RateLead.RatePage.EditComment | src/pages/RateLead.tsx:205 | Typing sets only the comment. |
| RateLead.RatePage.Submit | src/pages/RateLead.tsx:64-86 | No lead data fails with "Заявка не найдена" and inserts nothing. A successful insert appends the payload row and sets `submitted`. A failed insert leaves `submitted` unchanged. |
| PriceCalculator.Calculator.constructor | src/components/cars/PriceCalculator.tsx:16-22 | The car price starts at the prop (5,000,000 by default). The other five amounts start at `CALCULATOR_DEFAULTS`, so the total is the price plus 625,000. |
| PriceCalculator.Calculator.TotalIsSum | src/components/cars/PriceCalculator.tsx:24-71 | The total is the sum of the six slider rows. |
| PriceCalculator.Calculator.SetItem | src/components/cars/PriceCalculator.tsx:108-114 | Moving one slider replaces that amount only. The total moves by the difference. |
| PriceCalculator.Calculator.TotalWithinSliders | src/components/cars/PriceCalculator.tsx:108-113 | With every slider in range, `carPrice <= total <= 55,000,000`. |
| PriceCalculator.SumWithinSliders | src/components/cars/PriceCalculator.tsx:110-112 | Six amounts in their slider ranges sum to between 0 and 55,000,000, and to at least the car price. |
| PriceCalculator.SliderMax | src/components/cars/PriceCalculator.tsx:111 | The car-price slider ends at 50,000,000. The others end at 1,000,000. |
| PriceCalculator.DefaultOpening | src/components/cars/PriceCalculator.tsx:16-24 | Without a prop the calculator opens at 5,625,000. |
| Cars.BuildCarQuery | src/hooks/useCars.tsx:21-52 | A car satisfies the built clauses iff it meets every set, truthy filter (equality on make, body, fuel and status; bounds on price and year; case-insensitive search in make or model). A falsy filter adds no clause. |
| Cars.PriceSteps | src/hooks/useCars.tsx:29-34 | The two price steps keep exactly the cars within the set price bounds. |
| Cars.YearSteps | src/hooks/useCars.tsx:35-40 | The two year steps keep exactly the cars within the set year bounds. |
| Cars.AttributeSteps | src/hooks/useCars.tsx:41-49 | The body, fuel and status steps keep exactly the cars with the chosen attributes. |
| Cars.ListCars | src/hooks/useCars.tsx:17-59 | The result holds exactly the wanted cars of the table, newest first, each no more often than in the table. |
| Cars.NoFilterKeepsAll | src/hooks/useCars.tsx:26-52 | No filters, or only falsy ones, keep every car. |
| Cars.SearchIgnoresCase | src/hooks/useCars.tsx:50-52 | A search equal to the make up to letter case finds the car. |
| Cars.CarById | src/hooks/useCars.tsx:61-76 | With unique ids the lookup never fails. It finds a car iff the id is non-empty and present, and that car has the id. |
| Cars.FeaturedCars | src/hooks/useCars.tsx:78-94 | At most six cars, all featured and available, from the table, newest first. |
| Cars.FeaturedAreNewest | src/hooks/useCars.tsx:82-88 | A showcase car left out means six cars are shown, none older than it. |
| Cars.CarTable.Insert | src/hooks/useCars.tsx:96-114 | A fresh id appends exactly the new car and returns it. A clashing id is an error that changes nothing. |
| Cars.CarTable.Update | src/hooks/useCars.tsx:116-136 | Only the car with that id gets the new columns. The call succeeds iff that id exists, returning the updated car. |
| Cars.CarTable.Delete | src/hooks/useCars.tsx:138-154 | Unless the store refuses, exactly the car with that id goes. A refusal is returned as the error and changes nothing. |
| AdminCars.DefaultForm | src/pages/admin/AdminCars.tsx:25-47 | The blank form is dated with the current year, has no make and no images, and is available and not featured. |
| AdminCars.BlankFormCostsAreCalculatorDefaults | src/pages/admin/AdminCars.tsx:38-42 | The blank form's five cost fields are 300000, 150000, 50000, 25000 and 100000. |
| AdminCars.EditFallsBackToBlankForm | src/pages/admin/AdminCars.tsx:61-73 | A cost, fuel or transmission column that is null or falsy opens at the blank form's value. A set one opens as stored. |
| AdminCars.EditSaveSetsEveryCost | src/pages/admin/AdminCars.tsx:61-80 | Opening a car and saving it unchanged writes a non-zero value into every cost column. |
| AdminCars.EditSaveRoundTrip | src/pages/admin/AdminCars.tsx:61-80 | Opening a car and saving it unchanged gives back its columns iff none of them falls back. A `null` image list is written back as `[]`, and `is_featured` is written back as stored. |
| AdminCars.ParseImages | src/pages/admin/AdminCars.tsx:205 | Every parsed URL is non-empty, trimmed and comma-free. |
| AdminCars.ImagesRoundTrip | src/pages/admin/AdminCars.tsx:204-205 | Joining non-empty, trimmed, comma-free URLs with ", " and parsing the text gives the same list. |
| AdminCars.ImagesStable | src/pages/admin/AdminCars.tsx:204-205 | Showing a parsed list and parsing it again changes nothing. |
| AdminCars.Reset | src/pages/admin/AdminCars.tsx:49-59 | `resetForm` restores the blank form and clears the edited car. It does not touch the dialog. |
| AdminCars.Edit | src/pages/admin/AdminCars.tsx:61-75 | `handleEdit` fills the form from the car, remembers it and opens the dialog. |
| AdminCars.OpenChange | src/pages/admin/AdminCars.tsx:107 | Opening keeps form and edited car. Closing through the dialog also resets them. |
| AdminCars.CancelAsWritten | src/pages/admin/AdminCars.tsx:211 | The cancel button closes the dialog and keeps form and edited car. |
| AdminCars.SubmissionOf | src/pages/admin/AdminCars.tsx:79-85 | The save updates the edited car iff one is being edited, and inserts otherwise. Either way it sends the form's columns. |
| AdminCars.DialogTitle | src/pages/admin/AdminCars.tsx:115 | The title reads "Редактировать" iff a car is being edited. |
| AdminCars.CancelThenAddOverwrites | src/pages/admin/AdminCars.tsx:211 | Cancelling an edit and pressing "Добавить авто" opens the dialog in edit mode, and saving updates the old car. |
| AdminCars.CancelCorrected | src/pages/admin/AdminCars.tsx:107 | Cancelling through `onOpenChange(false)` closes the dialog with a blank form and no edited car. |
| AdminCars.CancelThenAddCreates | src/pages/admin/AdminCars.tsx:107-115 | After the corrected cancel, "Добавить авто" opens a new-car dialog whose save inserts the blank form. |
| AdminCars.AdminCarsPage.constructor | src/pages/admin/AdminCars.tsx:22-47 | The page starts closed, with the blank form and no edited car. |
| AdminCars.AdminCarsPage.ResetForm | src/pages/admin/AdminCars.tsx:49-59 | The state becomes `Reset` of the old state. |
| AdminCars.AdminCarsPage.HandleEdit | src/pages/admin/AdminCars.tsx:61-75 | The state becomes `Edit(car)`. |
| AdminCars.AdminCarsPage.OnOpenChange | src/pages/admin/AdminCars.tsx:107 | The state becomes `OpenChange` of the old state. |
| AdminCars.AdminCarsPage.Cancel | src/pages/admin/AdminCars.tsx:211 | The button as written: the state becomes `CancelAsWritten` of the old state. |
| AdminCars.AdminCarsPage.CancelFixed | src/pages/admin/AdminCars.tsx:107 | The corrected cancel: the state becomes `CancelCorrected` of the old state. |
| AdminCars.AdminCarsPage.EditForm | src/pages/admin/AdminCars.tsx:120-199 | An input replaces the form and nothing else. |
| AdminCars.AdminCarsPage.TypeImages | src/pages/admin/AdminCars.tsx:205 | Typing in the image input replaces only the image list, with the parsed text. |
| AdminCars.AdminCarsPage.HandleSubmit | src/pages/admin/AdminCars.tsx:77-91 | An edit updates that car's columns only. A new car is appended. A successful save shows its toast, closes the dialog and resets the form. A failed one shows "Ошибка сохранения" and keeps the page state. |
| AdminCars.AdminCarsPage.HandleDelete | src/pages/admin/AdminCars.tsx:93-98 | Nothing is deleted unless confirmed. A confirmed delete removes exactly that car and shows "Автомобиль удалён". A refused delete changes nothing and shows no toast, since the rejection is not caught. |
| ManagerScores.OwnScores | src/pages/manager/ManagerScores.tsx:13-26 | Without a user nothing is fetched. Otherwise the result is exactly the user's score rows, newest first. |
| ManagerScores.SumPointsAppend | src/pages/manager/ManagerScores.tsx:28 | The sum over two lists of rows is the sum of their sums. |
| ManagerScores.TotalPoints | src/pages/manager/ManagerScores.tsx:28 | Nothing fetched or no rows gives 0. Non-negative points total at least 0 and at least each row's points. |
| ManagerScores.SalesCount | src/pages/manager/ManagerScores.tsx:29 | Nothing fetched gives 0. The count never exceeds the rows, and it is 0 iff no row is a `sale`. |
| ManagerScores.ReviewsCount | src/pages/manager/ManagerScores.tsx:30 | Nothing fetched gives 0. The count never exceeds the rows, and it is 0 iff no row is a `review`. |
| ManagerScores.TotalsStep | src/pages/manager/ManagerScores.tsx:28-30 | With no rows all three totals are 0. One more row adds its points to `totalPoints`, and 1 to `salesCount` or `reviewsCount` when its type is `sale` or `review`. |
| ManagerScores.SalesAndReviewsWithinRows | src/pages/manager/ManagerScores.tsx:29-30 | `salesCount + reviewsCount` never exceeds the number of rows. |
| ManagerScores.IconAndColorAgree | src/pages/manager/ManagerScores.tsx:32-52 | The icon is the trend icon iff the type is `sale` and the star iff it is `review`. The icon and the colour always name the same class. |
| ManagerScores.CountersMatchIcons | src/pages/manager/ManagerScores.tsx:29-52 | The sales counter counts the rows drawn with the trend icon. The reviews counter counts the star rows. |
| AdminManagers.ManagerIds | src/pages/admin/AdminManagers.tsx:23-30 | The ids are exactly the users with a `manager` role row. |
| AdminManagers.WonWithinLeads | src/pages/admin/AdminManagers.tsx:67-73 | A manager's won leads never outnumber their leads. |
| AdminManagers.PointsMapMeaning | src/pages/admin/AdminManagers.tsx:49-52 | `scoresByManager` holds a manager iff they have score rows, with the sum of their points. |
| AdminManagers.ScoresByManager | src/pages/admin/AdminManagers.tsx:49-52 | The loop builds that dictionary. |
| AdminManagers.RatingsMapMeaning | src/pages/admin/AdminManagers.tsx:54-59 | Over approved reviews, `reviewsByManager` holds a manager iff they have an approved review, with their rating total and review count. |
| AdminManagers.ReviewsByManager | src/pages/admin/AdminManagers.tsx:54-59 | The loop builds that dictionary. |
| AdminManagers.LeadsMapMeaning | src/pages/admin/AdminManagers.tsx:67-73 | `leadsByManager` holds a manager iff they have leads, with their lead count and won count. |
| AdminManagers.LeadsByManager | src/pages/admin/AdminManagers.tsx:67-73 | The loop skips unassigned leads and builds that dictionary. |
| AdminManagers.ExpectedRowConsistent | src/pages/admin/AdminManagers.tsx:75-84 | A row's average is null iff it has no approved review and otherwise averages over the review count. `leads_won <= leads_total`. |
| AdminManagers.NoScoresNoPoints | src/pages/admin/AdminManagers.tsx:77 | A manager without score rows has 0 points. |
| AdminManagers.PendingReviewIgnored | src/pages/admin/AdminManagers.tsx:43-47 | A review not yet approved changes no manager's row. |
| AdminManagers.UnassignedLeadIgnored | src/pages/admin/AdminManagers.tsx:68 | A lead with no manager changes no manager's row. |
| AdminManagers.RowFromMapsExpected | src/pages/admin/AdminManagers.tsx:75-83 | Dictionaries with the meaning above give each profile the row read straight off the tables. |
| AdminManagers.QueriesKeepManagerRows | src/pages/admin/AdminManagers.tsx:31-65 | The `.in(user_id, ...)` queries keep all of a manager's score, approved-review and lead rows. |
| AdminManagers.Leaderboard | src/pages/admin/AdminManagers.tsx:20-86 | No manager role gives `[]`. Otherwise there is one row per manager profile, each equal to the row read off the tables, every manager profile's row is present, and the rows are sorted by points, highest first. |
| AdminAnalytics.StatusData | src/pages/admin/AdminAnalytics.tsx:11-15 | Three slices, "Новые", "В работе" and "Продажи", holding the new, in-progress and won counts (0 before loading). |
| AdminAnalytics.StatusChartWithinTotal | src/pages/admin/AdminAnalytics.tsx:11-15 | On real statistics the three slices never add up to more than the leads. |
| AdminAnalytics.Bump | src/pages/admin/AdminAnalytics.tsx:18 | One `reduce` step adds 1 to that make's count only. A new make is appended to the keys, and a known one keeps the key order. |
| AdminAnalytics.MakeCountsMeaning | src/pages/admin/AdminAnalytics.tsx:17-20 | `carsByMake[m]` is the number of cars of make m. The counts sum to the number of cars, and each make is a key once. |
| AdminAnalytics.CarsByMake | src/pages/admin/AdminAnalytics.tsx:17-20 | The loop builds that dictionary. Nothing loaded gives `{}`. |
| AdminAnalytics.MakeData | src/pages/admin/AdminAnalytics.tsx:22 | At most 8 bars: the first entries in key order, one bar per entry. |
| AdminAnalytics.AvailableTotal | src/pages/admin/AdminAnalytics.tsx:85 | The available count is at most the car count, and below it when some car is not available. |
| AdminAnalytics.Conversion | src/pages/admin/AdminAnalytics.tsx:94 | 0 without leads. In 0..100 when `won <= total`. 100 when all leads are won, and 0 when none is. |
| AdminAnalytics.ConversionIsPercentage | src/pages/admin/AdminAnalytics.tsx:94 | On real statistics the conversion lies in 0..100. |
| ClientRegister.PasswordProblem | src/pages/ClientRegister.tsx:32-40 | A mismatch is reported first, even for a short password. A matching password shorter than 6 is rejected. No problem iff the two agree and have at least 6 characters. |
| ClientRegister.FullName | src/pages/ClientRegister.tsx:45 | The full name is trimmed and no longer than the joined names. |
| ClientRegister.FullNameOfTwoNames | src/pages/ClientRegister.tsx:45 | Two trimmed, non-empty names are joined by one space. |
| ClientRegister.FullNameOfLastNameOnly | src/pages/ClientRegister.tsx:45 | With no first name the full name is the last name alone. |
| ClientRegister.SignUpErrorMessage | src/pages/ClientRegister.tsx:66-70 | A message containing "already registered" becomes "Этот email уже зарегистрирован". Any other non-empty message is shown as is. The toast is never empty. |
| ClientRegister.RegisterPage.HandleChange | src/pages/ClientRegister.tsx:25-27 | An input sets only its own field. |
| ClientRegister.RegisterPage.HandleSubmit | src/pages/ClientRegister.tsx:29-74 | A sign-up is sent iff the password checks pass. A failing check shows its message and leaves `isLoading` alone. A sign-up carries email, password, trimmed full name and phone, and ends with `isLoading` false. Success navigates to `/client`; an error shows the mapped message. |
| CreateManager.BearerToken | supabase/functions/create-manager/index.ts:21-26 | There is a token iff the header starts with "Bearer ", and it is the rest of the header. |
| CreateManager.IsAdminMeaning | supabase/functions/create-manager/index.ts:39-48 | The admin check passes iff the caller has exactly one admin role row. |
| CreateManager.ManagerRowKeepsAdmins | supabase/functions/create-manager/index.ts:74-76 | Adding a manager role row changes nobody's admin check. |
| CreateManager.RequiredFields | supabase/functions/create-manager/index.ts:53-55 | The fields pass iff email, password and full name are all present and non-empty. |
| CreateManager.Backend.CreateUser | supabase/functions/create-manager/index.ts:58-71 | An error or an empty answer changes nothing. Otherwise one confirmed user with the given email, password and full name is appended. |
| CreateManager.Backend.InsertRole | supabase/functions/create-manager/index.ts:74-76 | The row is appended unless the store refuses. |
| CreateManager.Backend.DeleteUser | supabase/functions/create-manager/index.ts:80 | Unless the auth service refuses, exactly the users with that id go. |
| CreateManager.RemoveFreshUser | supabase/functions/create-manager/index.ts:78-82 | Deleting a user that was just added with a fresh id gives back the old users. |
| CreateManager.Backend.HandleRequest | supabase/functions/create-manager/index.ts:8-104 | OPTIONS gives the bare CORS response and does nothing else. A status is 400 iff the body is an error, and every failure leaves the roles unchanged. The checks run in order: header, token, admin check (before the body is read), body, required fields; each failing check leaves the users unchanged. A failed or empty `createUser` changes nothing. A refused role insert deletes the new user again (unless that deletion fails) and reports "Failed to assign manager role". Success adds the user and its `manager` role and returns their id and email. |

## Left out

- Store failures are modelled where the page reacts to them: the refusal of a review update, a review delete or a car delete is a parameter. An insert or update fails only on a clashing primary key or, after `.single()`, a missing row. Other refusals (network, row-level security) of those calls are not modelled.
- Rendering, layout, icons, animations, toasts' styling, and the loading skeletons. Only the decisions behind them are modelled.
- The query cache (`invalidateQueries`), `isPending`/`isLoading` flags of mutations, and the `Promise.all` fan-outs. The model sees each query settled.
- Leads.ListLeads: the joined `cars(make, model, year, public_price)` columns are not part of the result rows.
- Cars.BuildCarQuery: the search text is taken as a plain substring. The store's `or`/`ilike` syntax, which the text is spliced into unescaped, is not modelled, and lower-casing covers ASCII letters only.
- Text.Trim: only ASCII whitespace is trimmed, not the whole Unicode set that JavaScript's `trim` removes.
- ClientRegister.PasswordProblem: lengths count characters, not UTF-16 code units.
- `engine_volume` (a floating-point column) is not part of the car record or the form. Every `Intl.NumberFormat`, `toFixed` and date formatting is left out too.
- AdminManagers.Leaderboard: the average rating is kept as an integer `(total, count)` pair, not the one-decimal string of `toFixed(1)`. The store's query errors, which the page ignores, appear as empty tables.
- AdminAnalytics.Conversion: the rounding is exact half-up rounding of `100 * won / total`. Floating-point error in the source's division is not modelled.
- AdminAnalytics.MakeData: the keys keep insertion order. JavaScript orders integer-like keys first, and a make spelled as a number is not modelled.
- Row-level security, column defaults, unique constraints other than primary keys, and database triggers are not part of the model. Store-generated ids and timestamps are parameters.
- The auth service is a set of parameters. `getClaims` is a function from token to user id. `createUser`, the role insert and `deleteUser` get their outcomes as parameters. `signUp` is its error. The password hashing and e-mail normalisation of that service are not modelled.
- CreateManager.Backend.HandleRequest: requires the id `createUser` issues to be new, as the auth service guarantees. The environment variables are assumed present.
- The "create manager" dialog of the admin managers page (a call of the server function with three text fields) is not modelled beyond the handler itself.
- RateLead.RatePage.Submit: the `isPending` half of the submit button's `disabled` test is not modelled.

## Findings

| source | as written | input that shows it | evidently intended | confidence | as-written member | corrected member |
|---|---|---|---|---|---|---|
| src/pages/admin/AdminCars.tsx:211 | The "Отмена" button only calls `setIsDialogOpen(false)`. A programmatic close does not run `onOpenChange`, so the edited car and its form survive. | Edit a car, press "Отмена", then press "Добавить авто" and save: the dialog is titled "Редактировать" and the save updates the old car instead of adding one. | Cancel resets the form and the edited car, as closing through `onOpenChange(false)` does. | medium, not executed | AdminCars.CancelThenAddOverwrites | AdminCars.CancelThenAddCreates |
