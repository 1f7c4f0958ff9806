# Dakar Hair Connect: a Dafny model of the booking and salon logic

Dakar Hair Connect is a web app for hair salons in Dakar. Clients search salons, book services through a four-step wizard, review salons and list or cancel their appointments. Stylists get a dashboard.

This project models the app's logic, not its screens:

- the seed catalog of salons and appointments;
- the booking wizard and its write to the browser's appointment store;
- the upcoming and history tabs of the appointments page, and cancellation;
- the dashboard's key figures, its seven-day revenue chart and its weekly schedule grid;
- the home page's search, "Top Rated" sort and filter button;
- the review dialog's star rating and submit guard;
- the product recommender's checkbox groups and form validation.

Pure computations are functions, with lemmas about them. The components' state is kept in classes whose methods change their fields. The schedule grid, which the source fills with nested loops, is built by methods with `while` loops and invariants.

Modules:

- `Common`: options, JavaScript truthiness of optional strings, `filter` and `reduce`-style sums.
- `Selection`: the checkbox toggle that the wizard and the recommender share.
- `SalonData`: the data types and the seed constants.
- `Dates`: dates as integer day numbers. Day 0 is 1970-01-01. `getDay` counts 0 for Sunday; weeks start on Monday.
- `AppointmentStore`: the browser store reduced to the appointments key.
- `Booking`, `AppointmentList`, `Dashboard`, `SalonSearch`, `Reviews`, `Recommender`: one module per component.

Modelling choices:

- **Appointment duration.** The source's `Appointment` type has no duration, and the seed appointments carry none. Yet the wizard writes one and the dashboard sums it. The model's `duration` is therefore an `Option<int>`: `None` on the seed records, `Some(total)` on booked ones, so the dashboard's handling of the missing value can be stated (see Findings).
- **Stylist choice.** The step-2 radio group is controlled: it displays "any" while the chosen value is null. A click on the item already displayed reports no change, so a first click on "Any Available" leaves the value null and `Next` stays blocked on step 2, although "Any Available" looks selected. Only another item, or "any" after a stylist was chosen, stores a value. `SelectStylist` states exactly that.
- **Times** stay "HH:MM" texts. The dashboard reads the hour back with `parseInt`.
- **Averages** of review ratings are exact `real` values.
- **The top-rated sort** is a stable sort by descending average, as `Array.prototype.sort` is.

## Model

| member | source | states |
|---|---|---|
| Common.Filter | src/components/booking-dialog.tsx:48 | `filter` keeps exactly the elements that pass the test, in their original order, and never lengthens the list |
| Common.FilterCounts | src/app/appointments/page.tsx:29-30 | `filter` keeps every copy of an element that passes and no copy of one that fails |
| Selection.Toggle | src/components/booking-dialog.tsx:39-45 | exactly the toggled id changes membership; every other id keeps its membership; a list without duplicates stays without duplicates |
| Selection.RemoveAll | src/components/booking-dialog.tsx:42 | the id no longer occurs; every other element keeps its membership; the list is unchanged when the id was absent; no duplicates are created; the list does not grow |
| Selection.ToggleTwice | src/components/booking-dialog.tsx:39-45 | toggling the same id twice restores the set of selected ids, and restores the exact list when the id was not selected |
| Selection.ToggleOrder | src/components/booking-dialog.tsx:41-43 | a newly checked id is appended at the end; unchecking keeps the others in their order (a subsequence) |
| SalonData.SeedSalonIdsDistinct | src/lib/placeholder-data.ts:40-111 | the four seed salon ids are pairwise distinct |
| SalonData.SeedServiceIdsDistinctPerSalon | src/lib/placeholder-data.ts:53-127 | within each seed salon no two services share an id |
| SalonData.SeedServiceIdsReusedAcrossSalons | src/lib/placeholder-data.ts:55-126 | ids `s1` and `s2` recur in other salons with a different price (and, for `s1`, a different duration), so a service is identified only within its salon |
| SalonData.SeedServicesPositive | src/lib/placeholder-data.ts:9-127 | every seed service has a positive price and a positive duration |
| SalonData.SeedRatingsInRange | src/lib/placeholder-data.ts:2-122 | every seed review rating lies in 1..5 |
| SalonData.SeedOneOfEachStatus | src/lib/placeholder-data.ts:142-149 | the seed appointments have one each of the statuses Upcoming, Completed and Cancelled |
| SalonData.SeedSalonNamesMatch | src/lib/placeholder-data.ts:146-150 | each seed appointment's salon name is the name of the seed salon with its salon id |
| SalonData.SeedAppointmentsHaveNoDuration | src/lib/placeholder-data.ts:135-150 | no seed appointment carries a duration |
| Dates.GetDay | src/app/dashboard/page.tsx:93 | the weekday number lies in 0..6 |
| Dates.WeekdayIndex | src/app/dashboard/page.tsx:93 | the Monday-first index lies in 0..6 and is 6 exactly for Sunday |
| Dates.StartOfWeek | src/app/dashboard/page.tsx:22-24 | the result is a Monday, at most six days before the given day, and the given day is that many days after it |
| Dates.SameWeek | src/app/dashboard/page.tsx:85-89 | every day of the week starting at a Monday has that Monday as its start of week |
| Dates.WeekPeriodic | src/app/dashboard/page.tsx:85-93 | weekdays repeat every seven days, and so do week starts |
| AppointmentStore.BrowserStore.constructor | src/components/booking-dialog.tsx:84 | the store starts with the given content |
| AppointmentStore.BrowserStore.SetItem | src/components/booking-dialog.tsx:94-104 | a successful write stores the list; a failed write leaves the store unchanged |
| AppointmentStore.CurrentAppointments | src/components/booking-dialog.tsx:82-93 | the wizard appends to the stored list; a missing key or an unparsable text gives the seed list; a stored value that is not a list makes the append throw |
| AppointmentStore.LoadedAppointments | src/app/dashboard/page.tsx:38-40 | the dashboard loads the stored list, or the seed list when the key is missing; an unparsable text or a non-list value ends in the effect's catch |
| AppointmentStore.PagesReadTheSameList | src/app/dashboard/page.tsx:38-40 | whenever the dashboard can read the store it reads the list a booking appends to, and a written list reads back unchanged on both pages |
| Booking.SelectedServices | src/components/booking-dialog.tsx:47-53 | a catalog service is selected exactly when its id is in the selection; the result keeps catalog order |
| Booking.Names | src/components/booking-dialog.tsx:71-73 | one name per service, position by position |
| Booking.TotalCost | src/components/booking-dialog.tsx:47-49 | nothing selected costs 0; with non-negative prices the total is non-negative |
| Booking.TotalDuration | src/components/booking-dialog.tsx:51-53 | nothing selected lasts 0 minutes; with non-negative durations the total is non-negative |
| Booking.SelectionOrderIrrelevant | src/components/booking-dialog.tsx:47-53 | two selections that agree on every catalog id select the same services |
| Booking.SelectingOneMore | src/components/booking-dialog.tsx:47-53 | adding one catalog id to the selection adds exactly that service's share to the sum |
| Booking.TotalsAfterToggle | src/components/booking-dialog.tsx:39-53 | a toggle moves the total cost and the total duration by exactly the toggled service's price and duration: up when it is checked, down when it is unchecked |
| Booking.NewAppointment | src/components/booking-dialog.tsx:67-79 | the new record has the given id, the salon's id and name, the chosen date and time, status Upcoming, cost `totalCost` and duration `totalDuration` |
| Booking.NewAppointmentContents | src/components/booking-dialog.tsx:71-73 | the service names follow catalog order, and a name is there exactly when a selected catalog service has it |
| Booking.NewAppointmentIgnoresClickOrder | src/components/booking-dialog.tsx:67-79 | selections with the same members book the same record |
| Booking.NamesOfSubsequence | src/components/booking-dialog.tsx:71-73 | the names of a subsequence of services are a subsequence of their names |
| Booking.BookingDialog.constructor | src/components/booking-dialog.tsx:32-36 | the wizard starts on step 1 with no services, no stylist, today's date and no time |
| Booking.BookingDialog.HandleServiceChange | src/components/booking-dialog.tsx:39-45 | the selection becomes its toggle; the step invariant is kept |
| Booking.BookingDialog.SelectStylist | src/components/booking-dialog.tsx:151 | a click on "any" while no stylist is stored changes nothing and leaves Next blocked; any other click stores the clicked value |
| Booking.BookingDialog.NextBlocked | src/components/booking-dialog.tsx:220 | when Next is enabled, the step it leads to has what it needs: a service from step 2 on, a stylist from step 3 on, a date and a time on step 4 |
| Booking.BookingDialog.SelectDate | src/components/booking-dialog.tsx:173-178 | a date before today is ignored; any other choice, including clearing, is stored |
| Booking.BookingDialog.SelectTime | src/components/booking-dialog.tsx:181-185 | any of the eleven slots can be chosen on any date, with no availability check |
| Booking.BookingDialog.Next | src/components/booking-dialog.tsx:220 | the step advances unless step 1 has no service, step 2 has no stylist, or step 3 lacks a date or a time; the step stays in 1..4 |
| Booking.BookingDialog.Back | src/components/booking-dialog.tsx:219 | the step goes back by one and stays in 1..4 |
| Booking.BookingDialog.ResetState | src/components/booking-dialog.tsx:57-63 | back to step 1 with no services, no stylist, today's date and no time |
| Booking.BookingDialog.HandleBooking | src/components/booking-dialog.tsx:65-113 | on a successful write the store holds the current list, or the seed list when the key was missing or unparsable, with the new record appended, and the dialog is closed and reset; when the stored value is not a list (the append throws) or the write fails, the store and the whole wizard are unchanged |
| Booking.BookingDialog.HandleClose | src/components/booking-dialog.tsx:115-120 | closing resets the wizard; opening keeps its state; the open flag follows the request |
| AppointmentList.UpcomingAppointments | src/app/appointments/page.tsx:29 | the upcoming tab holds exactly the upcoming records, in list order |
| AppointmentList.PastAppointments | src/app/appointments/page.tsx:30 | the history tab holds exactly the records that are not upcoming, in list order |
| AppointmentList.TabsPartition | src/app/appointments/page.tsx:29-30 | each appointment is in exactly one of the two tabs, and the history tab holds exactly the non-upcoming ones |
| AppointmentList.TabsPartitionCounts | src/app/appointments/page.tsx:29-30 | the two tabs together hold the list as a multiset, so their lengths add up to its length |
| AppointmentList.CancelById | src/app/appointments/page.tsx:40-44 | same length and order; a record with the id becomes Cancelled with its other fields kept; every other record is unchanged |
| AppointmentList.CancelIdempotent | src/app/appointments/page.tsx:40-44 | cancelling twice equals cancelling once |
| AppointmentList.CancelChangesOnlyStatus | src/app/appointments/page.tsx:40-44 | only the status field changes, and only on records with the id, and only to Cancelled |
| AppointmentList.CancelMovesToHistory | src/app/appointments/page.tsx:29-30 | a cancelled upcoming record leaves the upcoming tab and appears, cancelled, in the history tab; no upcoming record with that id remains |
| AppointmentList.CancelTabSizes | src/app/appointments/page.tsx:29-44 | the upcoming tab shrinks, and the history tab grows, by the number of upcoming records with the id |
| AppointmentList.AppointmentsPage.constructor | src/app/appointments/page.tsx:24-26 | the page starts with the seed list, a closed dialog and no selection |
| AppointmentList.AppointmentsPage.HandleCancelClick | src/app/appointments/page.tsx:32-35 | the id is remembered and the dialog opens |
| AppointmentList.AppointmentsPage.SetCancelDialogOpen | src/app/appointments/page.tsx:25 | the dialog's open flag follows the request |
| AppointmentList.AppointmentsPage.HandleConfirmCancel | src/app/appointments/page.tsx:37-53 | with no remembered id, or an empty one, nothing changes; otherwise that id is cancelled, the dialog closes and the selection is cleared |
| Dashboard.TodaysAppointments | src/app/dashboard/page.tsx:45 | today's bookings are exactly the appointments dated today that are not cancelled, in list order |
| Dashboard.TodaysCompleted | src/app/dashboard/page.tsx:46 | exactly the completed appointments dated today, a subsequence of today's bookings |
| Dashboard.TodaysFigures | src/app/dashboard/page.tsx:45-46 | today's bookings are dated today and none is cancelled; the completed ones are a subsequence of them, so there are no more of them; completed-today equals a one-pass filter for today's completed records |
| Dashboard.TodaysRevenue | src/app/dashboard/page.tsx:46-47 | today's revenue is the money taken today from completed appointments, and is non-negative when costs are |
| Dashboard.TodaysRevenueIsLastBar | src/app/dashboard/page.tsx:47 | today's revenue is the same number as the chart's bar for today |
| Dashboard.CompletedAppointments | src/app/dashboard/page.tsx:49 | exactly the completed appointments, in list order |
| Dashboard.RoundedMean | src/app/dashboard/page.tsx:52 | `Math.round(total / count)`: the result is within one half of the mean, with halves rounded up |
| Dashboard.TotalMinutesAsWritten | src/app/dashboard/page.tsx:50 | the sum is a number exactly when every record has a duration; otherwise it is NaN |
| Dashboard.AvgServiceTimeAsWritten | src/app/dashboard/page.tsx:49-53 | the figure is NaN exactly when some completed appointment has no duration |
| Dashboard.SeedAverageIsNaN | src/app/dashboard/page.tsx:49-53 | with the seed list, the figure as written is NaN |
| Dashboard.TimedCompleted | src/app/dashboard/page.tsx:49-50 | exactly the completed records that have a duration, in list order |
| Dashboard.AvgServiceTime | src/app/dashboard/page.tsx:49-53 | the corrected figure is 0 without timed completed records, and otherwise the mean of their durations, rounded half up |
| Dashboard.AvgMatchesWhenAllTimed | src/app/dashboard/page.tsx:49-53 | when every completed record has a duration, the figure as written and the corrected figure agree |
| Dashboard.AvgAgreesWhenDefined | src/app/dashboard/page.tsx:49-53 | whenever the figure as written is a number, it equals the corrected figure |
| Dashboard.AvgWithinBounds | src/app/dashboard/page.tsx:49-53 | the corrected figure lies between the shortest and the longest recorded duration |
| Dashboard.CompletedOn | src/app/dashboard/page.tsx:65-66 | exactly the completed appointments of the day, in list order |
| Dashboard.DayRevenue | src/app/dashboard/page.tsx:64-67 | a day without completed appointments takes 0; with non-negative costs a day's revenue is non-negative |
| Dashboard.WeeklyRevenue | src/app/dashboard/page.tsx:63-72 | the chart has exactly seven bars |
| Dashboard.RevenueWindowGrows | src/app/dashboard/page.tsx:64-67 | widening a date window by one day adds that day's completed revenue |
| Dashboard.WeeklyRevenueCoversWindow | src/app/dashboard/page.tsx:63-72 | the bars are for today minus six through today, in order; together they hold exactly the completed revenue of those seven days |
| Dashboard.FirstFieldIsPrefix | src/app/dashboard/page.tsx:96 | the text before the first colon is the longest colon-free prefix |
| Dashboard.LeadingDigitsIsPrefix | src/app/dashboard/page.tsx:96 | `parseInt` reads the longest prefix of decimal digits |
| Dashboard.DigitValue | src/app/dashboard/page.tsx:96 | a digit's value lies in 0..9 and is its distance from '0' |
| Dashboard.DecimalValue | src/app/dashboard/page.tsx:96 | the value of a digit string is never negative |
| Dashboard.TwoDigits | src/app/dashboard/page.tsx:77 | a zero-padded two-character text made of digits |
| Dashboard.ParseHourReadsLeadingDigits | src/app/dashboard/page.tsx:96 | the hour is NaN exactly when the text does not start with a digit, and otherwise is the value of its leading digits |
| Dashboard.LeadingDigitsIgnoreColon | src/app/dashboard/page.tsx:96 | cutting the text at its first colon does not change its leading digits |
| Dashboard.ParseHourOfFormatted | src/app/dashboard/page.tsx:96-97 | reading the hour of an "HH:MM" text gives back HH |
| Dashboard.SlotHoursParse | src/app/dashboard/page.tsx:77-97 | the grid rows read as hours 9, 10, 11, 12, 14 and 15 |
| Dashboard.ParseHour | src/app/dashboard/page.tsx:96 | a number read as the hour is never negative |
| Dashboard.FindSlotFindsMatch | src/app/dashboard/page.tsx:97 | a slot `find` returns is one of the slots searched, and its hour is the hour searched for |
| Dashboard.ClosestSlot | src/app/dashboard/page.tsx:96-97 | NaN finds no row |
| Dashboard.ClosestSlotInGrid | src/app/dashboard/page.tsx:97 | a found row is one of the grid's rows and reads as the hour searched for |
| Dashboard.ClosestSlotFinds | src/app/dashboard/page.tsx:96-97 | an hour finds a row exactly when it is one of the row hours, and then it finds that hour's row; 13 and 16 find none |
| Dashboard.FindSlotMatches | src/app/dashboard/page.tsx:97 | `find` succeeds exactly for an hour in the list, and returns the first slot of that hour |
| Dashboard.FindSlotIncreasing | src/app/dashboard/page.tsx:97 | over slots whose hours increase, `find` returns the slot of the hour searched for |
| Dashboard.InWeekOf | src/app/dashboard/page.tsx:86-89 | an appointment is in this week exactly when its Monday is today's Monday |
| Dashboard.AppointmentsThisWeek | src/app/dashboard/page.tsx:86-89 | exactly the appointments whose week is today's, whatever their status, in list order |
| Dashboard.DayName | src/app/dashboard/page.tsx:93-94 | there is no column exactly on Sundays; otherwise the column is one of Monday to Saturday |
| Dashboard.ScheduleIgnoresStatus | src/app/dashboard/page.tsx:86-101 | an appointment of this week books its cell whatever its status, and still does after being cancelled |
| Dashboard.DroppedAppointments | src/app/dashboard/page.tsx:93-99 | Sunday appointments, and appointments at an hour without a row, mark no cell |
| Dashboard.BuildSchedule | src/app/dashboard/page.tsx:79-103 | the grid has the six slot rows, each with the six weekday cells; a cell is "Booked" exactly when some appointment of this week falls on its weekday and its hour, and "" otherwise |
| Dashboard.EmptySchedule | src/app/dashboard/page.tsx:79-83 | six rows of six cells, all "" |
| Dashboard.EmptyRow | src/app/dashboard/page.tsx:82 | one cell per weekday name, each "" |
| Dashboard.MarkBookings | src/app/dashboard/page.tsx:91-102 | starting from the empty grid, the pass marks exactly the cells that some appointment of the list falls on |
| Dashboard.MarkOne | src/app/dashboard/page.tsx:92-101 | one step of the pass keeps the grid's shape and moves its marks from a list to that list plus one appointment |
| Dashboard.MarkCell | src/app/dashboard/page.tsx:99-101 | writing the cell of an appointment with a column and a row keeps the grid's shape and moves its marks from a list to that list plus the appointment |
| Dashboard.MarkedCellBooks | src/app/dashboard/page.tsx:99-101 | writing "Booked" into the empty cell that an appointment adds keeps the grid's shape and marks the longer list |
| Dashboard.WriteKeepsGrid | src/app/dashboard/page.tsx:99-101 | writing one existing cell keeps every row and every column |
| Dashboard.WriteBooksCell | src/app/dashboard/page.tsx:99-101 | writing "Booked" into an empty cell, when that cell is the only newly booked one, keeps every cell in step with the bookings; a cell already marked is left alone |
| Dashboard.BookedByAppendCell | src/app/dashboard/page.tsx:91-101 | one more appointment books exactly one more cell, the one of its column and row |
| Dashboard.UnmarkedKeepsCells | src/app/dashboard/page.tsx:99 | an appointment without a column or a row changes no cell |
| Dashboard.BookedByAppend | src/app/dashboard/page.tsx:91-101 | a cell is marked by a list plus one appointment exactly when it is marked by the list or by that appointment |
| Dashboard.ComputeKpis | src/app/dashboard/page.tsx:45-60 | there are no more completed bookings today than bookings today; today's revenue equals the chart's last bar; both counts are bounded by the list length; the average card shows the corrected figure, which is the page's own whenever that is a number |
| Dashboard.DashboardPage.constructor | src/app/dashboard/page.tsx:27-35 | the page starts loading, with placeholder figures, an empty chart and an empty grid |
| Dashboard.DashboardPage.RunEffect | src/app/dashboard/page.tsx:37-109 | loading always ends; a stored text that does not parse, or a value that is not a list, changes nothing else; otherwise the figures, the chart and the grid are those of the stored list, or of the seed list when nothing is stored |
| SalonSearch.LowerChar | src/app/page.tsx:21-25 | the letters A to Z map to a to z; every other character is kept |
| SalonSearch.Lower | src/app/page.tsx:21-25 | the text has the same length, lower-cased character by character |
| SalonSearch.ContainsMeansOccurs | src/app/page.tsx:23-25 | `includes` holds exactly when the query occurs at some position of the text |
| SalonSearch.Contains | src/app/page.tsx:23-25 | the empty query is in every text; a query is only found in a text at least as long |
| SalonSearch.MatchesQuery | src/app/page.tsx:22-26 | the empty query matches every salon |
| SalonSearch.LowerIdempotent | src/app/page.tsx:21 | lower-casing twice is lower-casing once |
| SalonSearch.QueryCaseIgnored | src/app/page.tsx:21-26 | a query matches the same salons as its lower-cased form, so the case the user types does not matter |
| SalonSearch.SearchFilter | src/app/page.tsx:19-27 | an empty query keeps every salon in order; otherwise the result holds exactly the salons whose lower-cased name, location or one service name contains the lower-cased query, in their original order |
| SalonSearch.EmptyQueryMatchesAll | src/app/page.tsx:20-26 | filtering with the empty query would keep every salon, so the guard only saves work |
| SalonSearch.AverageRating | src/app/page.tsx:32-33 | 0 without reviews; otherwise the number that, taken once per review, adds up to the ratings' total |
| SalonSearch.AverageWithinRatings | src/app/page.tsx:32-33 | with every rating in a range, the average lies in that range |
| SalonSearch.SeedAveragesInRange | src/app/page.tsx:32-33 | every seed salon's average lies in 1..5 |
| SalonSearch.Insert | src/app/page.tsx:31-35 | inserting adds the salon once and keeps every other salon |
| SalonSearch.InsertSorted | src/app/page.tsx:31-35 | inserting into a list sorted by descending average keeps it sorted |
| SalonSearch.InsertBelow | src/app/page.tsx:31-35 | inserting a salon rated at most some bound, among salons rated at most that bound, keeps every average at most the bound |
| SalonSearch.SortByRating | src/app/page.tsx:31-35 | the sorted copy is a permutation of the filtered list, in non-increasing order of average rating |
| SalonSearch.SortByRatingStable | src/app/page.tsx:31-35 | salons with equal averages keep their relative order |
| SalonSearch.InsertWithRating | src/app/page.tsx:31-35 | inserting into a sorted list puts the new salon first among those with its average |
| SalonSearch.ToggleFilter | src/app/page.tsx:41-43 | clicking the active filter clears it; clicking any other filter sets it |
| SalonSearch.ToggleFilterTwice | src/app/page.tsx:41-43 | two identical clicks restore the state when no other filter was active, and clear it otherwise |
| SalonSearch.Results | src/app/page.tsx:16-39 | without "Top Rated" the list is the search result in filter order; with it, the search result as a permutation sorted by descending average; either way exactly the matching salons |
| SalonSearch.Home.constructor | src/app/page.tsx:12-14 | no query, no filter, every seed salon |
| SalonSearch.Home.SetSearchQuery | src/app/page.tsx:16-39 | the query is stored and the list is recomputed from the seed salons; the filter is kept |
| SalonSearch.Home.HandleFilterClick | src/app/page.tsx:41-43 | the filter toggles, the query is kept and the list is recomputed |
| Reviews.StarFilled | src/components/review-dialog.tsx:75 | a star is filled exactly when its number is at most the larger of hover and rating |
| Reviews.FilledStarsFormPrefix | src/components/review-dialog.tsx:75 | the filled stars form a prefix: a filled star has every earlier star filled |
| Reviews.Submission | src/components/review-dialog.tsx:33-44 | nothing is submitted exactly when the rating is 0; otherwise the submission carries exactly the salon, the rating and the comment |
| Reviews.ReviewDialog.constructor | src/components/review-dialog.tsx:28-30 | rating 0, no hover, an empty comment |
| Reviews.ReviewDialog.ClickStar | src/components/review-dialog.tsx:79 | the rating becomes the star's number and stays in 0..5 |
| Reviews.ReviewDialog.HoverStar | src/components/review-dialog.tsx:80 | the preview becomes the star's number and stays in 0..5 |
| Reviews.ReviewDialog.LeaveStars | src/components/review-dialog.tsx:69 | leaving the row drops the preview to 0 |
| Reviews.ReviewDialog.EditComment | src/components/review-dialog.tsx:91 | the comment is replaced; the rating and preview stay in 0..5 |
| Reviews.ReviewDialog.ResetState | src/components/review-dialog.tsx:46-50 | rating, hover and comment go back to 0, 0 and "" |
| Reviews.ReviewDialog.HandleSubmit | src/components/review-dialog.tsx:33-44 | with rating 0 nothing is submitted and the form is kept; otherwise the current values are submitted, with a rating in 1..5, and the form is reset |
| Reviews.ReviewDialog.HandleClose | src/components/review-dialog.tsx:52-57 | closing resets the form; opening keeps it; the new open state is passed on |
| Recommender.Validate | src/app/recommender/page.tsx:35-43 | a form is accepted exactly when it has a hair type and at least one concern or goal, and the request then carries its values unchanged; a missing hair type is reported first, then an empty selection |
| Recommender.SubmitDisabled | src/app/recommender/page.tsx:135 | the button is enabled exactly when nothing is loading and a hair type is chosen, so that the form can only be refused for an empty selection |
| Recommender.EnabledSubmitHasHairType | src/app/recommender/page.tsx:135 | with the button enabled, the hair-type refusal cannot happen; the form is accepted exactly when a concern or a goal is checked |
| Recommender.RecommenderPage.constructor | src/app/recommender/page.tsx:21-26 | not loading, no answer, no hair type, no concern, no goal |
| Recommender.RecommenderPage.SelectHairType | src/app/recommender/page.tsx:89-90 | the hair type, one of the four offered, is stored |
| Recommender.RecommenderPage.HandleCheckboxChange | src/app/recommender/page.tsx:27-33 | the value, one offered in the chosen group, is toggled there only; the other group is untouched; both groups keep offered values only, each at most once |
| Recommender.RecommenderPage.BeginSubmit | src/app/recommender/page.tsx:35-53 | a refused form makes no request and changes nothing; an accepted one starts loading, clears the previous answer and sends exactly the form's values, all offered options; through the enabled button the form is refused exactly when nothing is checked |
| Recommender.RecommenderPage.FinishSubmit | src/app/recommender/page.tsx:54-64 | loading ends whatever the outcome; an answer is shown, and a failure keeps the answer as it was |

## Left out

- The browser store and JSON. `localStorage` and `JSON.parse`/`JSON.stringify` are a `StoredValue`: missing (or empty), unparsable, parsed to a value that is not a list, or a list that reads back as itself. Whether a write succeeds is a parameter.
- Clocks. "Today" is a parameter, and so is the appointment id, which the source builds from `Date.now()`.
- Dates as data. Dates are integer day numbers with `getDay` and `startOfWeek` written out. Time zones, `toISOString`/`parseISO`, the chart's weekday labels, `toLocaleString` and the display texts of the key figures are not modelled.
- Floating point. The rating average is an exact rational. For averages of a few small ratings, equal rationals give equal floating-point values and different ones keep their order. `toFixed`, the chart's tick format and the static "78%" occupancy card are not modelled.
- Case folding. `toLowerCase` is modelled on the ASCII letters A to Z only. Unicode case mapping is not modelled.
- `parseInt` leading whitespace and signs. The hour is read from the leading digits only. Every time the app writes is a zero-padded "HH:MM" text, so nothing else reaches it.
- Malformed stored records. A stored record is assumed to have every field, so the exceptions a missing `time` or `date` would raise in the dashboard effect are not modelled.
- A stored JSON string. A stored text that parses to a string is treated like the other non-list values, although the wizard's spread would split it into characters instead of throwing.
- The hosted AI flows. The recommender's call is not modelled: `BeginSubmit` returns the request, and `FinishSubmit` takes the answer, or `None` if the call threw.
- Toasts, console logging, layout, the salon card's image caching, the download scripts and the onboarding carousel are presentation or I/O, and are left out.
- The appointments page and the store. The page reads the seed list once and never reads or writes the browser store, so its cancellations are not persisted. The model keeps that separation.
- Concurrent submits. Two recommender submits racing during one pending request are not modelled; the button is disabled while loading.
- The NaN average. The dashboard's key figures use the corrected average service time. The page's own computation is kept beside it as `AvgServiceTimeAsWritten` (see Findings).

## Findings

| source | as written | input that shows it | evidently intended | confidence | as-written member | corrected member |
|---|---|---|---|---|---|---|
| src/app/dashboard/page.tsx:49-53 | the average service time sums `a.duration` over every completed appointment, but the seed appointments (src/lib/placeholder-data.ts:135-149) have no duration, so the sum is `0 + undefined`, which is NaN | a fresh browser with nothing stored: the seed list's one completed appointment, appt2, has no duration, and the card shows "NaN min" | the rounded mean of the durations that are recorded, 0 when none is | not executed | Dashboard.AvgServiceTimeAsWritten (with Dashboard.SeedAverageIsNaN) | Dashboard.AvgServiceTime (with Dashboard.AvgMatchesWhenAllTimed and Dashboard.AvgWithinBounds) |
