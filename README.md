# Blitzmo screen logic in Dafny

Blitzmo is a React Native photo-challenge app. Users sign up, add friends
and chat with them, and post one picture a day to a calendar. This project
models the decision logic behind its screens. Rendering, the Firestore
backend and the device are outside the model.

- **Dates** (`CalendarDates`, dates.dfy). Calendar arithmetic on Gregorian
  dates: adding and subtracting days, the run of dates around a reference
  day, the week and month layouts, and weekday and month name lookups.
- **Calendar grids** (`CalendarCard`, `CalendarPreview`):
  - the month card's 42-slot grid, cut into weeks, with trailing empty weeks
    dropped;
  - the two-week preview strip;
  - the "today" highlight.
- **Chat** (`ChatScreen`). `groupMessages` folds a message list into one
  section per date. Inside a section, messages are grouped into runs by the
  same sender. Also modelled: when the send button is enabled.
- **New chat** (`NewChatScreen`). The friend list is split into alphabetical
  sections, and the case-insensitive name or username search runs over it.
- **Friendship** (`SocialGraph`, `FriendRequest`, `ProfileScreen`):
  - the backend's `friends` and `friendRequests` sub-collections, as two
    relations over user ids held in a mutable `Backend` object;
  - accepting and deleting a request;
  - the profile screen's view of the relation between two users, its add,
    unsend and remove handlers, and the button it shows.
- **Credentials** (`Credentials`, `UsernameScreen`, `PasswordScreen`,
  `AccountUpdateScreen`). The username rule (character set, then length,
  then lower-casing) and the password rule (a letter, then a digit), each
  followed by its connection and uniqueness checks, and with the button
  gates.
- **Other forms:**
  - login and password reset (`LoginScreen`);
  - profile editing with its conditional field writes (`EditProfileScreen`);
  - the post caption limits and trimming (`PostScreen`);
  - the floating-label input (`BoxStringInput`);
  - the "friends who finished" strip (`ChallengeScreen`).

The models take three forms:

- **Loops.** Code that loops or mutates becomes a `method` proved against a
  specification function: `GenerateWeeklyCalendarDates`, `MonthLayout`,
  `GroupMessages` and `SetupFriendSections`.
- **Objects.** Code that updates state step by step becomes a class with
  `modifies` clauses: the `Backend`, the `Profile`, the `UserDocument`, and
  the `BoxStringInput.Input`.
- **If-chains.** Pure if-chains become functions, with lemmas stating what
  they guarantee.

Shared vocabulary lives in small modules:

- `Wrappers` holds `Option`.
- `Text` holds ASCII case mapping, substring search, `split`, line counting
  and JavaScript `trim`.
- `Sequences` holds `Dedup`, `Chunks` and `Flatten`.

Things taken as parameters:

- The device's connectivity (`isConnected`).
- The backend's answers: taken usernames, registered emails, whether a
  password re-authenticates, and the uploaded picture's URL.
- The weekday of a date.
- The year a date key parses to.
- The email regular expression, as an opaque predicate.

## Model

| member | source | states |
|---|---|---|
| CalendarDates.AddFutureDays | src/utils/Dates.js:7-11 | Adding days to a valid date gives a valid date. It undoes subtracting the same number of days (see AddPastFuture). |
| CalendarDates.AddPastDays | src/utils/Dates.js:1-5 | Subtracting days from a valid date gives a valid date. |
| CalendarDates.AddPastFuture | src/utils/Dates.js:1-11 | `addPastDays(n, addFutureDays(n, d)) == d` and the converse, for every n. |
| CalendarDates.Next | src/utils/Dates.js:7-11 | The next day of a valid date is valid and strictly later. |
| CalendarDates.Prev | src/utils/Dates.js:1-5 | The previous day of a valid date is valid and strictly earlier. |
| CalendarDates.NextIsSuccessor | src/utils/Dates.js:7-11 | No valid date lies strictly between a date and its next day. |
| CalendarDates.PrevNext | src/utils/Dates.js:1-11 | Going forward a day and then back returns the same date. |
| CalendarDates.NextPrev | src/utils/Dates.js:1-11 | Going back a day and then forward returns the same date. |
| CalendarDates.ShiftShift | src/utils/Dates.js:1-11 | Shifting by a days and then by b days equals shifting by a + b days. |
| CalendarDates.ShiftOrder | src/utils/Dates.js:1-11 | Shifting forward gives a later date; shifting back gives an earlier one. |
| CalendarDates.DaysInMonth | src/utils/Dates.js:61-74 | Every month has 28 to 31 days. A month has 28 exactly when it is February of a non-leap year. |
| CalendarDates.GenerateWeeklyCalendarDates | src/utils/Dates.js:13-28 | The two fill loops and their in-place reversals give `pastDays + futureDays + 1` dates. Entry i is the reference date shifted by `i - pastDays`. |
| CalendarDates.WriteFutureDays | src/utils/Dates.js:16-18 | The first loop leaves the reference day in cell 0 and the day i days ahead in cell i, for i up to `futureDays`. |
| CalendarDates.WritePastDays | src/utils/Dates.js:21-23 | After the first reversal, the second loop extends the run that counts down one day per cell, ending `pastDays` days back. |
| CalendarDates.ReversePrefix | src/utils/Dates.js:13-28 | In-place `reverse()` of an array prefix: the prefix becomes its reversal and the rest is unchanged. |
| CalendarDates.ShiftedRunConsecutive | src/utils/Dates.js:13-28 | A run of dates built that way is consecutive (each entry is the day after the previous one) and strictly increasing. |
| CalendarDates.WeekdayIndex | src/utils/Dates.js:30-38 | A known three-letter weekday name maps to a position 0..6. |
| CalendarDates.GetWeekday | src/utils/Dates.js:77-90 | A name exists exactly for 0..6, and `weekdayIndex` maps it back to the same number. |
| CalendarDates.WeekdayIndexInverse | src/utils/Dates.js:30-38 | `getWeekday(weekdayIndex(w)) == w` for every known weekday name. |
| CalendarDates.NumDaysBefore | src/utils/Dates.js:41-52 | The week starts `(position - startPosition) mod 7` days before the reference day. When a position is unknown it is 0, as the JavaScript comparison with `undefined` yields. |
| CalendarDates.CheckWeekLayout | src/utils/Dates.js:41-58 | The week has seven consecutive dates. The reference date sits at index `numDaysBefore`, and the first date falls on the starting weekday. |
| CalendarDates.CheckMonthLayout | src/utils/Dates.js:61-74 | The month array holds day 1 to the month's last day of the reference month, in order. |
| CalendarDates.GetMonthName | src/utils/Dates.js:93-111 | A name exists exactly for month numbers 0..11. |
| CalendarDates.GetMonthNum | src/utils/Dates.js:114-131 | A recognised name yields a month number 0..11. |
| CalendarDates.MonthNameRoundTrip | src/utils/Dates.js:93-131 | For every month number 0..11, `getMonthNum` maps both the month's full name and its three-letter abbreviation back to that number. |
| CalendarDates.MonthNumSound | src/utils/Dates.js:114-131 | Any name `getMonthNum` recognises is the full name or the abbreviation of the month it returns. |
| CalendarDates.MonthNumIff | src/utils/Dates.js:93-131 | `getMonthNum(name)` is month k exactly when k is 0..11 and the name is month k's full name or abbreviation; any other string gives undefined. |
| CalendarCard.IsSameDay | src/components/display/CalendarCard.js:28-36 | The year, month and day comparison holds exactly when the two dates are equal. |
| CalendarCard.ImagePreview | src/components/display/CalendarCard.js:27-58 | An empty slot renders blank. A day renders its day of the month, highlighted exactly when it is today. |
| CalendarCard.KeptWeeksMembers | src/components/display/CalendarCard.js:70-76 | The kept weeks are exactly the weeks that hold a day. |
| CalendarCard.MonthLayout | src/components/display/CalendarCard.js:60-76 | The two loops fill 42 slots with the month's days from `firstWeekday` on, and keep the 7-slot weeks that hold a day. |
| CalendarCard.KeepWeeks | src/components/display/CalendarCard.js:70-76 | The slicing loop pushes, in order, exactly the 7-slot weeks of the grid that hold a day. |
| CalendarCard.WeekHasDayIff | src/components/display/CalendarCard.js:64-76 | Week w holds a day iff the month is non-empty and the week starts before the month's last slot. |
| CalendarCard.OnlyTrailingWeeksDropped | src/components/display/CalendarCard.js:60-76 | The kept weeks are a prefix of the six weeks: the first `ceil((firstWeekday + days) / 7)` of them. |
| CalendarCard.KeptWeeksHoldTheMonth | src/components/display/CalendarCard.js:60-76 | Reading the days of the kept weeks in order gives back exactly the month's days. |
| CalendarPreview.PreviewDates | src/components/display/CalendarPreview.js:15-17 | The strip holds 14 consecutive days ending with the reference date. |
| CalendarPreview.WeekLayout | src/components/display/CalendarPreview.js:47-52 | The stepping `slice` loop cuts the dates into rows of seven. |
| CalendarPreview.RowsOfSeven | src/components/display/CalendarPreview.js:47-52 | The rows flatten back to the dates. Every row but the last has seven dates, and 14 dates give two weeks. |
| CalendarPreview.ImagePreview | src/components/display/CalendarPreview.js:20-45 | A day cell shows its day of the month and is highlighted exactly on the reference date. |
| CalendarPreview.OnlyLastDayIsToday | src/components/display/CalendarPreview.js:15-45 | Only the last of the 14 preview days is highlighted. |
| ChatScreen.GroupMessages | src/screens/inbox/ChatScreen.js:104-137 | The reduce, which mutates its accumulator message by message, followed by the titling map, gives exactly `Sections(messageList)`. |
| ChatScreen.GroupedShape | src/screens/inbox/ChatScreen.js:107-120 | After the reduce, the keys are the distinct dates in first-appearance order. Each key's batches hold exactly that date's messages, as maximal same-sender runs. |
| ChatScreen.GroupedPreservesMessages | src/screens/inbox/ChatScreen.js:107-120 | The reduce loses and invents no message: as a multiset, the accumulator holds exactly the input. |
| ChatScreen.BuildSectionsSpec | src/screens/inbox/ChatScreen.js:125-134 | One section per key, in key order, titled with that key and holding that key's batches. |
| ChatScreen.TitleOf | src/screens/inbox/ChatScreen.js:126-132 | The year is shown exactly for dates outside the current year, and the weekday exactly for dates inside it. |
| ChatScreen.SectionsPreserveMessages | src/screens/inbox/ChatScreen.js:104-137 | The sections hold every message exactly once. |
| ChatScreen.SectionsDates | src/screens/inbox/ChatScreen.js:104-137 | There is one section per distinct date, titled with the dates in first-appearance order. |
| ChatScreen.SectionsOrder | src/screens/inbox/ChatScreen.js:104-137 | Section dates are pairwise distinct, each date with a message has a section, and sections follow the first appearance of their dates. |
| ChatScreen.SectionsContent | src/screens/inbox/ChatScreen.js:104-137 | Each section's batches are non-empty same-sender runs that alternate senders. Together they hold exactly that date's messages, in input order, and the title format depends on the year as stated. |
| ChatScreen.NoMessagesNoSections | src/screens/inbox/ChatScreen.js:104-137 | No messages give no sections. |
| ChatScreen.SendEnabled | src/screens/inbox/ChatScreen.js:93-100 | Send is enabled iff the message has a character that JavaScript `trim` does not remove. |
| NewChatScreen.SectionTitle | src/screens/inbox/NewChatScreen.js:75 | A name starting with an ASCII letter gets that letter upper-cased; any other name gets "#". |
| NewChatScreen.SameSectionIff | src/screens/inbox/NewChatScreen.js:75 | Two names share a section iff both start with the same letter, ignoring case, or neither starts with a letter. |
| NewChatScreen.FindTitle | src/screens/inbox/NewChatScreen.js:78 | `find` returns the first section with the title, or nothing when no section has it. |
| NewChatScreen.FindSection | src/screens/inbox/NewChatScreen.js:78 | The search loop returns the same index as `find`. |
| NewChatScreen.SetupFriendSections | src/screens/inbox/NewChatScreen.js:69-91 | The `forEach`, which pushes into an existing section or appends a new one, gives exactly `Sectioned(friendData)`. |
| NewChatScreen.FriendSectionsSpec | src/screens/inbox/NewChatScreen.js:69-91 | Section titles are the distinct initials in first-appearance order. Each section lists exactly the ids of the friends under its title, in input order, and every friend appears once. |
| NewChatScreen.ExecuteSearch | src/screens/inbox/NewChatScreen.js:93-104 | An id is a result iff some friend with that id has the lower-cased query in their lower-cased name or username. Results keep the friends' order. |
| NewChatScreen.ExecuteSearchOrdered | src/screens/inbox/NewChatScreen.js:93-104 | With distinct friend ids, each matching friend's id appears once, and the ids come in the order of the friend list. |
| NewChatScreen.OnSearchChange | src/screens/inbox/NewChatScreen.js:41-47 | An empty query gives no results; any other query runs the search. |
| SocialGraph.Insert | src/screens/user/ProfileScreen.js:153 | Writing a document adds exactly that one member to that one owner's set. |
| SocialGraph.Remove | src/screens/user/ProfileScreen.js:176 | Deleting a document removes exactly that one member from that one owner's set. |
| SocialGraph.BefriendSpec | src/screens/user/ProfileScreen.js:153-156 | The two friend writes add exactly the pair, in both directions, and keep friendship mutual. |
| SocialGraph.UnfriendSpec | src/screens/user/ProfileScreen.js:176-179 | The two friend deletes remove exactly the pair, in both directions, and keep friendship mutual. |
| SocialGraph.BefriendCount | src/screens/user/ProfileScreen.js:153-157 | A new friendship raises the other user's friend count by one. |
| SocialGraph.UnfriendCount | src/screens/user/ProfileScreen.js:176-180 | Ending a friendship lowers the other user's friend count by one. |
| FriendRequest.AcceptRequest | src/components/display/FriendRequest.js:42-51 | Two friend writes, then the request delete: the backend ends in `Accepted(old state)`. |
| FriendRequest.DeleteRequest | src/components/display/FriendRequest.js:53-55 | The single delete leaves the backend in `Declined(old state)`. |
| FriendRequest.AcceptedSpec | src/components/display/FriendRequest.js:42-51 | After accepting, the two users are friends both ways and the request is gone. No other user's friends and no other request change, and friendship stays mutual. |
| FriendRequest.DeclinedSpec | src/components/display/FriendRequest.js:53-55 | Deleting drops only that request, and the friends relation is unchanged. |
| FriendRequest.AcceptedIdempotent | src/components/display/FriendRequest.js:42-51 | Accepting twice gives the same relations as accepting once. |
| ProfileScreen.ConnectOption | src/screens/user/ProfileScreen.js:183-212 | Unsend shows iff the status is `Received`. Add shows iff the status is not `Received` and the user is not a friend or the status is `Sent`. Message shows iff a friend has no status. |
| ProfileScreen.ResolveReflects | src/screens/user/ProfileScreen.js:112-145 | From a view with `isFriend` false and no status, the three chained lookups give a view that agrees with the backend: friend first, then `Received`, then `Sent`. |
| ProfileScreen.ResolveReflectsIff | src/screens/user/ProfileScreen.js:48-49 | From the view seeded by the route parameter `friend`, the lookups agree with the backend iff a seeded `true` is really a friend; a stale `true` for a non-friend is kept. |
| ProfileScreen.ResolvePrefersReceived | src/screens/user/ProfileScreen.js:125-135 | A request from the current user shows as `Received` even when one also goes the other way. |
| ProfileScreen.AddKeepsInStep | src/screens/user/ProfileScreen.js:147-165 | Pressing add on a tidy backend keeps the view, the backend and the friend count in step. With status `Sent` it makes the users friends; otherwise it records a `Received` request. |
| ProfileScreen.UnsendKeepsInStep | src/screens/user/ProfileScreen.js:167-170 | Unsend withdraws the current user's request, clears the status and keeps view and backend in step. |
| ProfileScreen.RemoveKeepsInStep | src/screens/user/ProfileScreen.js:172-181 | Remove ends the friendship both ways, lowers the count by one and keeps view and backend in step. |
| ProfileScreen.Profile.CheckIfFriend | src/screens/user/ProfileScreen.js:112-145 | The chained lookups update the view to `Resolve` of the backend. |
| ProfileScreen.Profile.AddFriend | src/screens/user/ProfileScreen.js:147-165 | The handler's field updates and backend writes give exactly `AddFriendStep` of the old view and backend. |
| ProfileScreen.Profile.UnsendRequest | src/screens/user/ProfileScreen.js:167-170 | The delete and the status reset give exactly `UnsendStep`. |
| ProfileScreen.Profile.RemoveFriend | src/screens/user/ProfileScreen.js:172-181 | The two deletes and the field updates give exactly `RemoveFriendStep`. |
| Credentials.CheckUsername | src/screens/setup/signup/UsernameScreen.js:55-67 | The character-set warning comes before the length warning. A name is accepted iff it has only `[a-zA-Z0-9_.]` and at least 2 characters, and it is handed on lower-cased. |
| Credentials.AcceptedStaysAccepted | src/screens/setup/signup/UsernameScreen.js:55-67 | The lower-cased form of an accepted name has the same length and is itself accepted unchanged. |
| Credentials.CheckPassword | src/screens/setup/signup/PasswordScreen.js:20-31 | A missing letter is reported before a missing digit. A password is accepted iff it has both, and it is handed on as typed. |
| UsernameScreen.OnChangeText | src/screens/setup/signup/UsernameScreen.js:28-30 | The input keeps at most 20 characters, a prefix of the typed text. A changed value clears the warning. |
| UsernameScreen.PressNextSpec | src/screens/setup/signup/UsernameScreen.js:33-70 | Next is offered iff the name is non-empty. It goes on iff the name passes the rule, the device is online and the lower-cased name is free. Otherwise the warning for the first failing check is shown. |
| UsernameScreen.HandedOnLength | src/screens/setup/signup/UsernameScreen.js:55-67 | A name typed into the 20-character input and handed on has 2 to 20 characters. |
| PasswordScreen.OnChangeText | src/screens/setup/signup/PasswordScreen.js:15-17 | Typing sets the password, and a changed value clears the warning. |
| PasswordScreen.PressNextSpec | src/screens/setup/signup/PasswordScreen.js:20-73 | Next is offered iff the password has at least 8 characters. It goes on iff the password has a letter and a digit; otherwise the letter warning comes before the digit warning. |
| PasswordScreen.EditClearsWarning | src/screens/setup/signup/PasswordScreen.js:15-31 | After a rejection, editing to a different text clears the warning. |
| AccountUpdateScreen.OnChangeDetail | src/screens/settings/account/AccountUpdateScreen.js:52-55 | The username input keeps at most 20 characters; the other inputs keep the text. The current password is untouched. |
| AccountUpdateScreen.OnChangeCurrentPassword | src/screens/settings/account/AccountUpdateScreen.js:52-55 | Typing sets the current password and leaves the edited value alone. |
| AccountUpdateScreen.EditClearsBothWarnings | src/screens/settings/account/AccountUpdateScreen.js:52-55 | Changing either input clears both warnings; re-entering the same value changes nothing. |
| AccountUpdateScreen.UpdateEnabled | src/screens/settings/account/AccountUpdateScreen.js:255-292 | Username: non-empty and changed. Email: non-empty, changed and a current password given. Password: more than 7 characters and a current password given. |
| AccountUpdateScreen.SubmitUsernameSpec | src/screens/settings/account/AccountUpdateScreen.js:58-94 | A username is written iff it passes the sign-up rule, the device is online and it is free. The value written is the lower-cased name, which the rule accepts unchanged. |
| AccountUpdateScreen.SubmitEmailSpec | src/screens/settings/account/AccountUpdateScreen.js:110-150 | An email is written iff it is valid, online, not in use and the password re-authenticates. Warnings follow that order, and the last goes under the password input. |
| AccountUpdateScreen.SubmitPasswordSpec | src/screens/settings/account/AccountUpdateScreen.js:153-188 | A password is written iff it has a letter and a digit, online, and it re-authenticates. The letter warning comes before the digit warning, and offline gives only the offline warning. |
| EditProfileScreen.Change | src/screens/user/EditProfileScreen.js:71-83 | `change` holds iff the name, bio, location or picture differs from its original. |
| EditProfileScreen.ChangeIgnoresUsername | src/screens/user/EditProfileScreen.js:71-83 | The username never affects `change`. |
| EditProfileScreen.BioInvalidIff | src/screens/user/EditProfileScreen.js:252-258 | A bio is refused iff some line break starts it or follows another line break, that is, it has an empty line. |
| EditProfileScreen.CheckNameSpec | src/screens/user/EditProfileScreen.js:246-261 | The save runs iff the name is non-empty and the bio is valid. An empty name gets the name warning; otherwise an invalid bio gets the bio warning. |
| EditProfileScreen.SaveEnabledIff | src/screens/user/EditProfileScreen.js:315-342 | Save is enabled iff neither warning is up and some field changed. |
| EditProfileScreen.StoredBio | src/screens/user/EditProfileScreen.js:137-144 | The stored bio drops exactly one trailing line break when there is one; otherwise it is the bio unchanged. |
| EditProfileScreen.SavedSpec | src/screens/user/EditProfileScreen.js:128-173 | Exactly the fields that differ from their originals are written, each with its new value. A removed picture stores null and an empty photo URL, and no change writes nothing. |
| EditProfileScreen.UserDocument.WriteChanges | src/screens/user/EditProfileScreen.js:128-173 | The conditional writes, one field at a time, leave the document equal to `Saved(old document)`. |
| EditProfileScreen.UserDocument.SaveChangesAsWritten | src/screens/user/EditProfileScreen.js:122-176 | As written: the screen goes back, and the writes happen even when offline. |
| EditProfileScreen.UserDocument.SaveChanges | src/screens/user/EditProfileScreen.js:122-176 | Offline, the screen goes back and leaves the document unchanged. Online, the document becomes `Saved(old document)`. |
| EditProfileScreen.OfflineSaveStillWrites | src/screens/user/EditProfileScreen.js:124-131 | As written, an offline save of a renamed profile still stores the new name. |
| PostScreen.Typed | src/screens/challenge/PostScreen.js:194 | The caption input hands on at most 100 characters, a prefix of the edit (the cap is taken to cut the end of the text). |
| PostScreen.OnChangeTextAsWritten | src/screens/challenge/PostScreen.js:157-165 | Text starting with a line break is taken without its first character, with no line check. Other text is taken iff it has at most 4 lines. |
| PostScreen.AsWrittenAllowsFiveLines | src/screens/challenge/PostScreen.js:157-165 | As written, the edit "\na\nb\nc\nd\ne" leaves a five-line caption. |
| PostScreen.OnChangeText | src/screens/challenge/PostScreen.js:157-165 | With the 4-line check in both branches: the result is the old caption, the text, or the text without its leading break, and a caption of at most 4 lines stays within 4 lines. |
| PostScreen.TypingKeepsLimits | src/screens/challenge/PostScreen.js:157-165 | Typing keeps a caption within 4 lines and 100 characters. |
| PostScreen.TrimEmptyLinesAsWritten | src/screens/challenge/PostScreen.js:168-177 | As written, both checks read the old caption: the result is at most one character shorter, missing only a leading or a trailing line break. |
| PostScreen.AsWrittenKeepsLeadingBreak | src/screens/challenge/PostScreen.js:168-177 | As written, "\nabc\n" trims to "\nabc". |
| PostScreen.TrimEmptyLines | src/screens/challenge/PostScreen.js:168-177 | With the checks run in sequence: the result is the caption without an optional leading break and then an optional trailing break, at most two characters shorter. |
| PostScreen.TrimRemovesBothBreaks | src/screens/challenge/PostScreen.js:168-177 | "\nabc\n" trims to "abc". |
| PostScreen.TrimBothEnds | src/screens/challenge/PostScreen.js:168-177 | A caption with a break at both ends loses exactly those two. |
| PostScreen.TrimLeavesNoTrailingBreak | src/screens/challenge/PostScreen.js:173-176 | Unless the caption ended with two breaks, the trimmed caption does not end with one. |
| BoxStringInput.Typed | src/components/input/BoxStringInput.js:89 | With a `maxLength`, the input hands on at most that many characters, a prefix of the edit (the cap is taken to cut the end of the text); without one, the edit itself. |
| BoxStringInput.Input.constructor | src/components/input/BoxStringInput.js:11-16 | The label starts raised iff the initial text is non-empty. |
| BoxStringInput.Input.OnChangeText | src/components/input/BoxStringInput.js:34-39 | Text of at most 3 lines is taken; longer text leaves the stored text unchanged, and the stored text never exceeds 3 lines. |
| BoxStringInput.Input.Focus | src/components/input/BoxStringInput.js:80-81 | Focus always leaves the label raised. |
| BoxStringInput.Input.Blur | src/components/input/BoxStringInput.js:41-48 | Blur leaves the label raised iff it was raised and the text is non-empty. |
| BoxStringInput.Input.FocusThenBlur | src/components/input/BoxStringInput.js:41-86 | After focusing and leaving, the label is raised iff the input holds text. |
| LoginScreen.OnChangeEmail | src/screens/setup/LoginScreen.js:103-106 | A changed email clears the general and the email warning, and keeps the password warning. |
| LoginScreen.OnChangePassword | src/screens/setup/LoginScreen.js:108-111 | A changed password clears the general and the password warning, and keeps the email warning. |
| LoginScreen.LoginUserSpec | src/screens/setup/LoginScreen.js:216-242 | Each empty field gets its own warning, both in one press when both are empty. Sign-in happens iff both fields are filled, online, with valid credentials. Filled in but offline, only the offline warning appears. |
| LoginScreen.OnChangeForgottenEmail | src/screens/setup/LoginScreen.js:113-115 | A changed recovery email clears the modal warning. |
| LoginScreen.ResetPasswordSpec | src/screens/setup/LoginScreen.js:195-214 | Reset is offered iff a recovery email is typed. The email is sent iff online and registered; offline skips the lookup with the offline warning, and an unknown email gets its warning. |
| ChallengeScreen.NumExtra | src/screens/challenge/ChallengeScreen.js:73-77 | `numExtra` is set iff the count is at least 5, and is then `min(count - 4, 99)`. |
| ChallengeScreen.FriendsCompletionSpec | src/screens/challenge/ChallengeScreen.js:38-120 | 0 friends show the prompt and 1 a single avatar. From 2 on, the row is `20 * count + 20` wide (120 from 5) and has `min(count, 5)` slots: five avatars at 5, four and a badge above. Up to 103 friends, avatars plus badge count every friend. |

## Left out

- Rendering, animation, layout measurement, styles and navigation are not modelled. Where the screen navigates away, the model records it as a result, such as `next`, `signedIn` or `wentBack`.
- The Firestore, Auth and Storage calls are modelled as follows:
  - Friends and requests are reduced to set-valued relations over user ids.
  - Lookups are parameters: taken usernames, emails in use, registered emails, whether the credentials sign in, whether re-authentication succeeds, and the uploaded picture's URL.
  - Asynchronous ordering, listeners and failures of the writes themselves are left out.
- EditProfileScreen.UserDocument.WriteChanges: deleting the old picture from storage (`deleteObject`) is left out. Only the document and the sign-in profile fields are modelled.
- React state batching and effect timing are simplified. Each handler runs as sequential steps, with an effect applied where its state changes. In `checkUsername` the lower-cased name is set before the offline warning, and the model shows that warning. React would run the `[username]` effect after the render and clear a synchronously set warning when the name changed case. AccountUpdateScreen.SubmitUsername has the same simplification: the `[accountDetail, currentPassword]` effect would clear the offline or taken warning set after a change of case.
- `toLocaleString` titles and JavaScript `Date` parsing are foreign. A chat title is modelled as the date with its format options. The year a date key parses to is the parameter `yearOf`, fixed to the viewer's clock.
- ChatScreen.GroupMessages: `Object.keys` order is taken to be insertion order, which is what JavaScript gives for non-integer keys such as dates.
- Weekday names come from `toString().slice(0, 3)` and `getDay()`, which depend on the engine. The model takes them as inputs.
- Time of day is left out. A date is a year, a month 0..11 and a day of the month. `addPastDays`/`addFutureDays` are modelled as day shifts on the Gregorian calendar.
- JavaScript `toLowerCase`/`toUpperCase` are full Unicode. The model maps ASCII letters only and leaves every other character unchanged.
- The email regular expression is an opaque predicate `validEmail`, applied to the lower-cased text as the source does.
- The friend list is sorted with `localeCompare` before sectioning. Locale collation is left out; the sectioning is modelled on the list in the order it is given.
- CalendarCard.MonthLayout requires a non-empty month, because the source reads `calendarDays[0].getDay()` and throws on an empty one. It also requires `firstWeekday + |days| <= 42`. A month never exceeds it, while JavaScript would grow the array past 42 slots.
- `friendCount` on the profile is an integer. The placeholder `'-'` shown before it loads is not modelled.
- The keep-in-step lemmas of `ProfileScreen` require that the two users differ. They also require that the backend is tidy: friendship is mutual, the two users do not have requests to each other at the same time, and friends have no pending request. The handlers preserve tidiness.
- ChallengeScreen.FriendsCompletion: the source hard-codes the count to 7. The model takes the count as a parameter, and the avatars' images are left out.
- The message button on the profile has no action in the source, so there is nothing to model beyond when it shows.
- Text.CapLength, PostScreen.Typed, BoxStringInput.Typed, UsernameScreen.OnChangeText and AccountUpdateScreen.OnChangeDetail count lengths in characters (Unicode scalar values), not in the UTF-16 code units that JavaScript `.length` and `maxLength` count. A character outside the Basic Multilingual Plane, such as an emoji, counts 1 here and 2 in the source, so the model lets longer text through. These members also cut the end of the edit, while the platform's `maxLength` cuts the inserted text at the cursor; the two agree only when typing at the end.
- PasswordScreen.NextEnabled, PasswordScreen.PressNextSpec, AccountUpdateScreen.UpdateEnabled and PostScreen.TypingKeepsLimits use the same character count, so their length thresholds (8 characters, more than 7, 100 characters) are in characters, not UTF-16 code units.
- ProfileScreen.ResolveReflects starts from `isFriend` false. The screen seeds `isFriend` from the route parameter `friend` and the lookups never reset it, so a stale `true` for a user who is no longer a friend stays; ResolveReflectsIff states exactly when the seeded view agrees with the backend.
- The inputs' `maxLength` caps are modelled as the text the input hands on: `Typed`, and `CapLength` in the username inputs. The name, location and bio inputs' caps are left out, because no rule reads them.

## Findings

| source | as written | input that shows it | evidently intended | confidence | as-written member | corrected member |
|---|---|---|---|---|---|---|
| src/screens/user/EditProfileScreen.js:124-126 | When offline, `saveChanges` calls `navigation.goBack()` but does not return, so every changed field is still written. | Offline, with the name changed from "Ann" to "Bo": the document's name becomes "Bo". | The comment says offline goes back without saving, so nothing should be written. | not executed | EditProfileScreen.UserDocument.SaveChangesAsWritten, EditProfileScreen.OfflineSaveStillWrites | EditProfileScreen.UserDocument.SaveChanges |
| src/screens/challenge/PostScreen.js:160-161 | An edit starting with a line break is taken without its first character, and its line count is never checked. | Pasting "\na\nb\nc\nd\ne" into an empty caption leaves the five-line caption "a\nb\nc\nd\ne". | The caption is limited to 4 lines in every branch. | not executed | PostScreen.OnChangeTextAsWritten, PostScreen.AsWrittenAllowsFiveLines | PostScreen.OnChangeText, PostScreen.TypingKeepsLimits |
| src/screens/challenge/PostScreen.js:168-177 | Both checks of `trimEmptyLines` read the caption as it was, and the second `setCaption` overrides the first. | "\nabc\n" becomes "\nabc". The leading break survives. | Both the leading and the trailing line break are removed. | not executed | PostScreen.TrimEmptyLinesAsWritten, PostScreen.AsWrittenKeepsLeadingBreak | PostScreen.TrimEmptyLines, PostScreen.TrimRemovesBothBreaks |
