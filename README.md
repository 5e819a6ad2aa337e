# rental-wyze-sync in Dafny

This project models, and proves properties of, the core of rental-wyze-sync. That is a Python service that keeps rental properties ready for their guests:

- It reads each property's reservations from a booking service.
- It keeps one guest code per reservation on every lock: Wyze locks through the Wyze SDK, SmartThings locks through the SmartThings REST API. A code is created ahead of check-in, updated when its window changes, and deleted once the stay is over.
- It switches lights and sets thermostats for occupied or empty properties.
- It posts a summary of the changes to Slack.
- It reports lock battery levels.
- A separate script imports a properties CSV into a table.

The model follows the modules of the program:

- **Pure helpers become functions, each with lemmas.** These are the string and time helpers of `src/utilty.py` and the adapters. The lemmas give each helper a partner: an inverse, a round trip, or a reference definition.
- **State-changing code becomes methods over classes.** This covers the reconciling engines, and the older scripts that do the same job. `Wyze.Account` and `SmartThingsCloud.Cloud` stand for the vendors, holding the codes per lock. Each vendor call consumes one entry of a fault script: answer normally, reject with an error number, raise, or mutate but read back a stale listing.
- **What each engine promises is proved as method postconditions and as lemmas over the state functions.** Examples:
  - the errors it returns;
  - what is left on the lock;
  - that a run against a vendor that never fails reconciles the lock with the reservations;
  - that a second such run changes nothing.

Clocks, environment settings, the Slack client, the table client, `json`, `float` and the per-device setting oracles are parameters. Timestamps are seconds since 1970-01-01 as naive local time. Integers are unbounded; the source does no fixed-width arithmetic.

Some behaviour of the code is easy to miss on a first reading. The section "Behaviour as written" lists these cases. Each one is established in the Dafny by the member named there.

## Model

| member | source | states |
|---|---|---|
| `Common.Take` | src/brands/wyze/locks.py:149 | `s[:n]`: the first `n` characters, or all of `s` when it is shorter; a prefix of `s` |
| `Common.TakeLast` | src/brands/wyze/locks.py:134 | `s[-n:]`: the last `n` characters, or all of `s`; a suffix of `s` |
| `Common.Digits` | src/brands/wyze/locks.py:127 | `''.join(filter(str.isdigit, s))` keeps only digits and never grows the string |
| `Common.DigitsAppend` | src/brands/wyze/locks.py:127 | the digit filter distributes over concatenation |
| `Common.DigitsOfDigits` | src/brands/wyze/locks.py:127 | filtering a digit-only string gives it back |
| `Common.Remove` | src/brands/wyze/locks.py:149 | `s.replace(c, '')` holds no `c` and exactly the other characters of `s` |
| `Common.Strip` | src/brands/wyze/wyze.py:186-198 | `s.strip()` neither starts nor ends with whitespace |
| `Common.StripShape` | src/brands/wyze/wyze.py:186-198 | what `strip` removes is whitespace on both sides of the result |
| `Common.StripPadded` | src/brands/wyze/wyze.py:186-198 | stripping whitespace padding gives back the padded word |
| `Common.FirstWord` | src/brands/wyze/locks.py:114 | `s.split()[0]` is absent exactly when `s` is empty or all whitespace (the IndexError), else the first maximal run of non-whitespace after leading whitespace |
| `Common.FirstWordOf` | src/brands/wyze/locks.py:114 | a name made of leading spaces, a word and a space-separated rest yields that word |
| `Common.IntToStringParses` | src/brands/wyze/error_mapping.py:34 | `str(n)` renders an integer with its sign and reads back as the same integer |
| `Clock.SecondsSplit` | src/utilty.py:12-28 | an instant splits into its calendar day and its wall-clock hour |
| `Clock.DaysOfYear` | src/utilty.py:12-28 | a year has 365 days, 366 in a leap year |
| `Clock.NextDaySeconds` | src/utilty.py:12-28 | consecutive calendar days are exactly 86400 seconds apart |
| `Clock.ParseDateTime` | src/utilty.py:24-28 | `strptime(s, "%Y-%m-%dT%H:%M:%S")` succeeds only on a valid date whose rendering is `s`, up to the letter case of the 'T' |
| `Clock.BadTimestamp` | src/utilty.py:24 | the ValueError text: text left after the match gives "unconverted data remains: " and that text; a full-length padded timestamp gets the no-match text exactly when it parses, and otherwise the range text of the year, the day or the second |
| `Clock.TrailingZoneText` | src/utilty.py:24 | "2024-06-01T16:00:00Z" raises "unconverted data remains: Z" |
| `Clock.MissingDayText` | src/utilty.py:24 | February 29th of a common year and April 31st raise "day is out of range for month" |
| `Clock.LeapSecondText` | src/utilty.py:24 | second 60 raises "second must be in 0..59" |
| `Clock.YearZeroText` | src/utilty.py:24 | year 0 raises "year 0 is out of range" |
| `Clock.LowercaseT` | src/utilty.py:24 | a lowercase 't' separator parses like 'T' |
| `Clock.ParseRender` | src/utilty.py:24-28 | rendering a valid date and parsing it back gives the same date |
| `Clock.FormatDatetime` | src/utilty.py:12-28 | `format_datetime` fails exactly when parsing fails, and otherwise returns the parsed instant plus `offset_hours` hours |
| `Clock.FormatShift` | src/utilty.py:12-28 | two offsets applied to one timestamp differ by exactly their difference in hours |
| `Clock.ParseHourMinute` | src/utilty.py:127-128 | `strptime(t, "%H:%M").hour` succeeds exactly on `H:M` with an hour up to 23 and a minute up to 59, and gives an hour below 24 |
| `Json.Dig` | src/brands/smartthings/lights.py:7-11 | nested subscripting: the value at the end of the path, the first missing key (KeyError) or the TypeError of subscripting a non-dict |
| `Json.DigNest` | src/brands/smartthings/lights.py:7-11 | following the path a value was nested under gives the value back |
| `Json.DigAppend` | src/brands/smartthings/lights.py:7-11 | a path can be followed in two parts |
| `Utility.SubtractStringLists` | src/utilty.py:30-44 | `x` is in the result iff it is in `list1` and not in `list2`; no duplicates |
| `Utility.SubtractCovered` | src/utilty.py:30-44 | nothing is left when `list2` covers `list1` |
| `Utility.Matching` | src/utilty.py:101-104 | keeps exactly the items whose `when` equals the key value |
| `Utility.MatchingAppend` | src/utilty.py:101-104 | the filter keeps the original order (distributes over concatenation) |
| `Utility.YieldsStrings` | src/utilty.py:102 | iterating a string or a dict yields nothing exactly when it is empty, and only strings otherwise |
| `Utility.FilterByKey` | src/utilty.py:88-111 | raises exactly when the value at `sub_key` is not iterable or yields a non-dict; `None` iff no yielded item matches; otherwise the value was a list and the result is a copy with `sub_key` holding the matching items in order and every other key unchanged |
| `Utility.FilterStringOrDict` | src/utilty.py:101-104 | a string or a dict at `sub_key` gives `None` when empty and raises otherwise |
| `Utility.RestHours` | src/utilty.py:127-128 | the hours of the `rest_times` entries, one per entry, or failure when one does not parse |
| `Utility.IsValidHour` | src/utilty.py:113-131 | raises for a None item; a missing `rest_times` gives False; raises exactly when `rest_times` is not iterable or yields an entry `strptime` cannot read (a string's characters, a dict's keys, a list's items); otherwise True iff the current hour equals the hour of some yielded entry |
| `Utility.RestTimesDictKeys` | src/utilty.py:128 | a dict `{"10:00": true}` under `rest_times` is read by its keys and names hour 10 |
| `WyzeErrorMapping.GetErrorMessage` | src/brands/wyze/error_mapping.py:3-34 | a listed code gives its table text, any other code the generic "Unknown error occurred (code N)…" text |
| `WyzeErrorMapping.UnknownMessageNamesCode` | src/brands/wyze/error_mapping.py:34 | the code of an unlisted error can be read back out of its message |
| `LegacyErrorMapping.GetErrorMessage` | src/error_mapping.py:1-8 | 5030 and 5034 give their texts, every other code "An unknown error occurred." |
| `OldestErrorMapping.GetErrorMessage` | src/sync-locks/sync-locks-function/error_mapping.py:1-8 | 5030 gives its text, every other code (5034 included) the unknown text; always one of two strings |
| `OldestErrorMapping.AgreesWithLegacy` | src/sync-locks/sync-locks-function/error_mapping.py:1-8 | the two older tables agree on every code except 5034 |
| `Reservations.RawCode` | src/brands/wyze/locks.py:127-134 | with at least four digits, the raw code is four digits ending the digit-only phone |
| `Reservations.Screen` | src/brands/wyze/locks.py:107-145 | the validation outcome, each case stated as an iff: a missing or falsy guest; a guest that is not a string (the AttributeError of `split`); a blank guest (split raises); a missing or falsy phone; a phone that is not a string (the TypeError of iterating it, caught as a phone error); fewer than four digits; or accepted with the first name and a four-digit raw code |
| `Reservations.DatePart` | src/brands/wyze/locks.py:149 | `checkin[:10]` without '-': at most ten characters and no '-' |
| `Reservations.ParseLabel` | src/brands/wyze/locks.py:148-149 | a label read back is "Guest " + a space-free first name + " " + the date part |
| `Reservations.ParseMadeLabel` | src/brands/wyze/locks.py:148-149 | every label made by the engines reads back as its first name and date part |
| `Reservations.LabelsCollide` | src/brands/wyze/locks.py:148-149 | two labels coincide exactly when the first names and the date parts agree |
| `Reservations.LabelIsGuest` | src/brands/wyze/locks.py:148 | every label starts with "Guest", the prefix the deletion rules look for |
| `WyzeApi.Answer` | src/brands/wyze/wyze.py:115-170 | a vendor mutation answers ErrNo 0 when applied, and raises WyzeApiError exactly under a raising fault |
| `WyzeApi.Listing` | src/brands/wyze/wyze.py:105-110 | a normal read shows the current table; a rejected or raising read gives `None` |
| `WyzeApi.WithoutId` | src/brands/wyze/wyze.py:157-162 | after a delete the table holds exactly the codes with another id, in order |
| `WyzeApi.WithUpdate` | src/brands/wyze/wyze.py:135-143 | after an update the code with that id carries the new name, access code and permission, and every other code is unchanged |
| `WyzeApi.WithoutIdUnique` | src/brands/wyze/wyze.py:157-162 | a delete keeps the ids of the table unique |
| `WyzeApi.Account.GetKeys` | src/brands/wyze/wyze.py:105-110 | `get_keys` answers the lock's table or `None`, consumes one fault, logs the read and changes nothing else |
| `WyzeApi.Account.CreateAccessCode` | src/brands/wyze/wyze.py:117-122 | an applied create appends one code with a fresh id owned by the account's user; otherwise the tables stay |
| `WyzeApi.Account.UpdateAccessCode` | src/brands/wyze/wyze.py:137-143 | an applied update rewrites the code with that id; otherwise the tables stay |
| `WyzeApi.Account.DeleteAccessCode` | src/brands/wyze/wyze.py:159-162 | an applied delete removes the code with that id; otherwise the tables stay |
| `Wyze.FindCode` | src/brands/wyze/wyze.py:112-113 | `find_code` is `None` iff no code has the label, else the first code with that label |
| `Wyze.FindIndexAppend` | src/brands/wyze/wyze.py:112-113 | appending a differently named code leaves every lookup as it was; appending the first code of a name makes it the answer |
| `Wyze.FindIndexUpdate` | src/brands/wyze/wyze.py:112-113 | an update that keeps a code's name moves no lookup |
| `Wyze.GetDeviceByName` | src/brands/wyze/wyze.py:51-59 | the first device with that nickname; `None` iff the listing raised or no device has it |
| `Wyze.GetUserIdFromExistingCodes` | src/brands/wyze/wyze.py:175-183 | a known id is kept; else the `userid` of the first code that has one; `None` iff none has |
| `Wyze.MutationResult` | src/brands/wyze/wyze.py:115-133 | `add_lock_code`/`update_lock_code` return True iff ErrNo is 0, and `None` (falsy) iff the SDK raised |
| `Wyze.DeleteResult` | src/brands/wyze/wyze.py:157-170 | `delete_lock_code` returns True iff ErrNo is 0 or 5021, False for any other ErrNo, `None` iff the SDK raised |
| `Wyze.AlreadyDeletedIsSuccess` | src/brands/wyze/wyze.py:163 | 5021 is "Successfully deleted" in the error table and success for a delete, but a failure for a create or update |
| `Wyze.AddLockCode` | src/brands/wyze/wyze.py:115-133 | the flag is `MutationResult` of the vendor's answer, and the account changes exactly as one create does |
| `Wyze.UpdateLockCode` | src/brands/wyze/wyze.py:135-155 | the flag is `MutationResult` of the vendor's answer, and the account changes exactly as one update does |
| `Wyze.DeleteLockCode` | src/brands/wyze/wyze.py:157-170 | the flag is `DeleteResult` of the vendor's answer, and the account changes exactly as one delete does |
| `Wyze.MapToMode` | src/brands/wyze/wyze.py:186-197 | `None` iff no member answers the stripped, lower-cased input; else the first member in declaration order that does |
| `Wyze.MapToModeNormalises` | src/brands/wyze/wyze.py:187 | surrounding whitespace around the input does not change the mode chosen |
| `WyzeLocks.EligibleCodes` | src/brands/wyze/locks.py:82-85 | a code is deleted iff its name starts with "Guest" and either every guest code goes or its duration window ended before now |
| `WyzeLocks.NothingEligible` | src/brands/wyze/locks.py:82-85 | a listing with nothing eligible gives the deletion pass nothing to do |
| `WyzeLocks.OnlyGuestCodesDeleted` | src/brands/wyze/locks.py:83 | a code whose name does not start with "Guest" is never deleted, even with delete-all |
| `WyzeLocks.DeleteCalls` | src/brands/wyze/locks.py:82-86 | the deletion pass makes one delete call per eligible code, in listing order |
| `WyzeLocks.RemovedMeans` | src/brands/wyze/locks.py:86-89 | a deletion entry names a code whose delete `delete_lock_code` called a success; an error entry one whose delete it did not |
| `WyzeLocks.RemovedOrNot` | src/brands/wyze/locks.py:86-89 | every attempted delete lands in exactly one of the deletions and the errors |
| `WyzeLocks.AllRemoved` | src/brands/wyze/locks.py:86-89 | under a vendor that performs every delete, every delete is recorded and none fails |
| `WyzeLocks.DeletionSnoc` | src/brands/wyze/locks.py:86-89 | one more delete extends exactly one of the two lists, by its entry |
| `WyzeLocks.NoCreatesInDeletes` | src/brands/wyze/locks.py:82-96 | the deletion pass creates no code |
| `WyzeLocks.PurgeLog` | src/brands/wyze/locks.py:82-96 | the deletion pass and its re-read extend the call log without a create |
| `WyzeLocks.DeleteOne` | src/brands/wyze/locks.py:86-89 | one delete call, logged, with its entry in the matching list; under a quiet vendor the code is gone |
| `WyzeLocks.DeleteEach` | src/brands/wyze/locks.py:82-91 | each eligible code is deleted in turn; the lists are `Removed`/`NotRemoved` of the responses; only that lock changes; under a quiet vendor what is left is old and was not doomed |
| `WyzeLocks.PurgeExpired` | src/brands/wyze/locks.py:79-96 | deletes exactly the eligible codes, re-reads iff any delete was attempted, and under a quiet vendor leaves nothing eligible and a listing equal to the lock |
| `WyzeLocks.PlanFor` | src/brands/wyze/locks.py:105-156 | each reservation is skipped with its message (including the "Phone Number Error" of a phone that cannot be processed), raises, is in the past, or is managed under the label "Guest <first> <yyyymmdd>" with both offset ends and a checkout after the current time |
| `WyzeLocks.OnlyFoundHasId` | src/brands/wyze/wyze.py:135-143 | no other code of a unique-id table shares the id of the code `find_code` finds |
| `WyzeLocks.EffectSettles` | src/brands/wyze/locks.py:164-234 | after adding or updating, the reservation's label shows the wanted window |
| `WyzeLocks.EffectKeeps` | src/brands/wyze/locks.py:164-234 | adding or updating one label leaves the lookup of every other label unchanged |
| `WyzeLocks.EffectEligible` | src/brands/wyze/locks.py:156-162 | a code written for a reservation that has not ended is not eligible for the next deletion pass |
| `WyzeLocks.EffectIdle` | src/brands/wyze/locks.py:229 | the reservation changes nothing exactly when its label already shows the wanted window |
| `WyzeLocks.PassKeeps` | src/brands/wyze/locks.py:105-234 | one managed reservation keeps every other managed label's lookup |
| `WyzeLocks.PassSkip` | src/brands/wyze/locks.py:107-156 | a reservation the loop does not manage keeps the loop's invariant |
| `WyzeLocks.PassStep` | src/brands/wyze/locks.py:164-234 | one managed reservation under a vendor that performs every call keeps the loop's invariant |
| `WyzeLocks.PlansAhead` | src/brands/wyze/locks.py:156 | the loop manages only reservations whose window ends after the current time |
| `WyzeLocks.VerifyAdded` | src/brands/wyze/locks.py:176-188 | at most `verifyMax` re-reads, stopping at the first that shows the label; a failed read raises; it creates nothing |
| `WyzeLocks.AddAttempt` | src/brands/wyze/locks.py:171-213 | one create and its verification; continues only while attempts remain; its give-up and abort messages; under a quiet vendor the code is added |
| `WyzeLocks.AddWithRetry` | src/brands/wyze/locks.py:171-213 | at most `addMax` creates; does nothing iff `addMax` is 0; with `verifyMax` 0 raises the unbound-variable error; under a quiet vendor adds exactly one code |
| `WyzeLocks.ManageCode` | src/brands/wyze/locks.py:164-234 | a settled label makes no call; a drifted one is updated once with its update or error entry; an absent one is added; at most `addMax` creates |
| `WyzeLocks.ProcessPlan` | src/brands/wyze/locks.py:105-234 | an invalid reservation adds its skip message and no call; a raising one aborts; a past one does nothing; a managed one on a failed listing raises |
| `WyzeLocks.PassOne` | src/brands/wyze/locks.py:105-234 | the loop body keeps the loop invariant under a quiet vendor, and makes no call when every label is settled |
| `WyzeLocks.ReservationPass` | src/brands/wyze/locks.py:105-234 | at most `addMax` creates per reservation; under a quiet vendor the lock ends reconciled; from a listing where every label is settled it makes no call |
| `WyzeLocks.Reconcile` | src/brands/wyze/locks.py:79-241 | deletes, re-reads and runs the loop with the "Unexpected Error" entry on a raise; a reconciled lock gets no call and no entry |
| `WyzeLocks.AdoptUserId` | src/brands/wyze/locks.py:69 | the account's user id becomes `get_user_id_from_existing_codes` of the listing |
| `WyzeLocks.SyncLock` | src/brands/wyze/locks.py:56-241 | an unreadable listing or a missing user id ends with one error and no further call; otherwise the lock is reconciled |
| `WyzeLocks.Sync` | src/brands/wyze/locks.py:23-243 | a lock the account does not list ends with "Device Not Found" and no call; an unreadable listing ends with its one error after exactly one listing call; otherwise `SyncLock` runs on its MAC |
| `SmartThings.FilterLocks` | src/brands/smartthings/smartthings.py:398-400 | exactly the devices whose first component lists `lockCodes`; raises iff some device has no component |
| `SmartThings.FilterLocksAppend` | src/brands/smartthings/smartthings.py:398-400 | the filter keeps the devices' order: it distributes over concatenation |
| `SmartThings.MaxId` | src/brands/smartthings/smartthings.py:419 | `max(existing_ids, default=0)`: 0 on an empty lock, else the greatest slot |
| `SmartThings.FindNextAvailableUserId` | src/brands/smartthings/smartthings.py:417-423 | a slot no code uses, at most max + 1, with every slot below it taken; positive when the lock's slots are |
| `SmartThings.FindUserIdByName` | src/brands/smartthings/smartthings.py:425-426 | `None` iff no entry has exactly that name, else the slot of the first that does |
| `SmartThings.FindAllGuestUserIds` | src/brands/smartthings/smartthings.py:428-429 | exactly the slots of entries whose name starts with "Guest" |
| `SmartThings.FindAllGuestUserNames` | src/brands/smartthings/smartthings.py:431-432 | exactly the entry names that start with "Guest" |
| `SmartThings.GuestListsInStep` | src/brands/smartthings/smartthings.py:428-432 | the two guest lists have one length and their k-th slot and name belong to one entry |
| `SmartThings.FindLockByName` | src/brands/smartthings/smartthings.py:520-521 | `None` iff no lock's name matches ignoring case, else the first that does |
| `SmartThings.LockIndexByNames` | src/brands/smartthings/smartthings.py:520-521 | two listings with the same names position by position find the lock at the same place |
| `SmartThings.FindLocationByName` | src/brands/smartthings/smartthings.py:92-112 | `None` for a failed or empty listing or no match ignoring case; else the id of the first matching location |
| `SmartThings.RawCodesAreValid` | src/brands/smartthings/smartthings.py:447 | every four-digit code the engines derive from a phone passes `add_user_code`'s digit check |
| `SmartThings.Commands` | src/brands/smartthings/smartthings.py:344-374 | each requested command once, in the order mode, cool, heat, fan, and every requested one present |
| `SmartThings.ChangeLines` | src/brands/smartthings/smartthings.py:377-385 | one distinct line per known field that differs from its target, none after a failed status read |
| `SmartThings.NoChangeWhenMatching` | src/brands/smartthings/smartthings.py:377-385 | settings that already match the targets produce no change line |
| `SmartThings.SendAll` | src/brands/smartthings/smartthings.py:388-393 | every command is sent in order, and the result is true iff every answer accepted |
| `SmartThings.SetThermostat` | src/brands/smartthings/smartthings.py:301-396 | no request without a device id; otherwise exactly `Commands` is sent, the change lines are `ChangeLines`, and success is the conjunction of the answers |
| `SmartThingsCloud.ListingUnder` | src/brands/smartthings/smartthings.py:513-518 | a listing answers the location's locks unless it is refused (iterating `None` raises) or raises |
| `SmartThingsCloud.Refreshed` | src/brands/smartthings/smartthings.py:523-556 | nothing when the listing failed; else `find_lock_by_name` on the fresh listing |
| `SmartThingsCloud.SetSlot` | src/brands/smartthings/smartthings.py:459-466 | `setCode` leaves the slot holding the name, appending an entry when the slot was free, and adds no other entry |
| `SmartThingsCloud.DropSlot` | src/brands/smartthings/smartthings.py:488-495 | `deleteCode` removes exactly the entries of that slot |
| `SmartThingsCloud.EditLocks` | src/brands/smartthings/smartthings.py:459-495 | a write changes each lock with that id and no other, keeping the number of locks |
| `SmartThingsCloud.FindEdited` | src/brands/smartthings/smartthings.py:520-521 | a write keeps names, so the lock found by name is the one found before, edited |
| `SmartThingsCloud.EditKeepsWellFormed` | src/brands/smartthings/smartthings.py:459-495 | a positive-slot set or a delete keeps a lock table well formed |
| `SmartThingsCloud.FindPut` | src/brands/smartthings/smartthings.py:425-466 | a name the table lacks is found at its new slot once that slot is set |
| `SmartThingsCloud.DropSlotUnique` | src/brands/smartthings/smartthings.py:488-495 | what a delete leaves keeps distinct slots |
| `SmartThingsCloud.DropSlotDistinct` | src/brands/smartthings/smartthings.py:488-495 | what a delete leaves keeps distinct names |
| `SmartThingsCloud.FindAppend` | src/brands/smartthings/smartthings.py:425-426 | appending another name keeps the lookup; appending a new name makes it found |
| `SmartThingsCloud.FindDropOther` | src/brands/smartthings/smartthings.py:425-426 | deleting a slot that holds only other names keeps the slot found for `name` |
| `SmartThingsCloud.FindDropped` | src/brands/smartthings/smartthings.py:425-426 | deleting the slot of a name held once leaves no entry with that name |
| `SmartThingsCloud.Cloud.GetLocks` | src/brands/smartthings/smartthings.py:513-518 | the answer is `ListingUnder` of the current fault; the locks stay and the read is logged |
| `SmartThingsCloud.Cloud.RefreshLockData` | src/brands/smartthings/smartthings.py:523-556 | an accepted read gives the named lock from the current locks; any other read gives `None` |
| `SmartThingsCloud.Cloud.AddUserCode` | src/brands/smartthings/smartthings.py:434-481 | a code that is not a non-empty run of digits is refused with no request; otherwise the next free slot is set and the answer logged |
| `SmartThingsCloud.Cloud.DeleteUserCode` | src/brands/smartthings/smartthings.py:483-511 | one `deleteCode` for the slot, applied iff the vendor performs it, logged with its answer |
| `SmartThingsLocks.PlanFor` | src/brands/smartthings/locks.py:65-115 | each reservation is skipped with its message (including the "Phone Number Error" of a phone that cannot be processed), raises, or is booked under "Guest <first> <yyyymmdd>"; active iff checkout is after now; due iff now lies in [checkin, checkout) |
| `SmartThingsLocks.DueIsActive` | src/brands/smartthings/locks.py:111-115 | a reservation with a code due is active, so the cleanup never deletes its code |
| `SmartThingsLocks.ActiveLabels` | src/brands/smartthings/locks.py:111-112 | `active_guest_user_names` holds exactly the labels of the stays not yet ended |
| `SmartThingsLocks.VerifyAdd` | src/brands/smartthings/locks.py:125-138 | at most `verifyMax` fresh reads, stopping at the first that shows the label, which is the cloud's own view of the lock; no write |
| `SmartThingsLocks.PutShows` | src/brands/smartthings/smartthings.py:459-466 | a name the lock lacks shows, once its free slot is set, in the cloud's next view of the lock |
| `SmartThingsLocks.AddAttempt` | src/brands/smartthings/locks.py:121-158 | one `add_user_code` and its verification; with `verifyMax` 0 the unbound `verify_attempt` raises; under a quiet vendor the label is added and shows |
| `SmartThingsLocks.GaveUp` | src/brands/smartthings/locks.py:142-165 | a label no attempt verified gets the last attempt's error, then the closing "after all attempts" error |
| `SmartThingsLocks.AddCode` | src/brands/smartthings/locks.py:117-165 | at most `addMax` writes; a verified label has no error; otherwise the `GaveUp` errors; under a quiet vendor the label is added |
| `SmartThingsLocks.SlottedShows` | src/brands/smartthings/locks.py:115 | on positive slots, the truthiness test of `find_user_id_by_name` is exactly "the lock holds the name" |
| `SmartThingsLocks.QuietAdd` | src/brands/smartthings/smartthings.py:434-481 | a quiet add keeps the table well formed, shows the name, and moves no other name |
| `SmartThingsLocks.ProcessPlan` | src/brands/smartthings/locks.py:65-165 | a skipped reservation adds its message; a raising one aborts; a code not due or already shown makes no call; a due missing one is added |
| `SmartThingsLocks.PassOne` | src/brands/smartthings/locks.py:63-165 | one turn keeps the pass's invariant or stops as the exception says |
| `SmartThingsLocks.PassStep` | src/brands/smartthings/locks.py:63-165 | the pass's invariant survives one plan, or the pass stops with what raised |
| `SmartThingsLocks.ReservationPass` | src/brands/smartthings/locks.py:63-165 | collects exactly the active labels; aborts only on a raising reservation or the unbound-variable error; at most `addMax` writes per due code; when every due code shows it makes no call |
| `SmartThingsLocks.QuietDrop` | src/brands/smartthings/smartthings.py:483-511 | deleting the one slot of a name removes it and leaves every other name where it was |
| `SmartThingsLocks.QuietDelete` | src/brands/smartthings/locks.py:181-202 | after a quiet delete the lock, found by name, lacks that name and is otherwise as it was |
| `SmartThingsLocks.DeleteName` | src/brands/smartthings/locks.py:181-202 | each name adds one deletion or one error; a name with no truthy slot is an error with no call; a deletion entry follows a read that no longer shows the name |
| `SmartThingsLocks.DeleteSlot` | src/brands/smartthings/locks.py:183-202 | one delete request, confirmed by a fresh read when accepted, adding one deletion or one error |
| `SmartThingsLocks.ConfirmDeletion` | src/brands/smartthings/locks.py:188-200 | the deletion is recorded iff the fresh read succeeds and no longer shows the name |
| `SmartThingsLocks.CleanOne` | src/brands/smartthings/locks.py:181-202 | one turn keeps the cleanup's invariant |
| `SmartThingsLocks.CleanedStep` | src/brands/smartthings/locks.py:181-202 | the cleanup's invariant survives one delete-and-confirm |
| `SmartThingsLocks.QuietCleanStep` | src/brands/smartthings/locks.py:181-202 | under a quiet vendor the next purged name is deleted |
| `SmartThingsLocks.Cleanup` | src/brands/smartthings/locks.py:179-202 | one entry per purged name, a deletion or an error; every deletion names a purged label; nothing to purge makes no call; under a quiet vendor every purged name is deleted |
| `SmartThingsLocks.PlansSound` | src/brands/smartthings/locks.py:85-115 | the plans keep every due code active and carry codes `add_user_code` accepts |
| `SmartThingsLocks.Purge` | src/brands/smartthings/locks.py:176-177 | the purged names are exactly the guest names on the lock that are not active, without repeats |
| `SmartThingsLocks.NothingToPurge` | src/brands/smartthings/locks.py:176-177 | a reconciled lock leaves the cleanup nothing to purge |
| `SmartThingsLocks.PurgedIsReconciled` | src/brands/smartthings/locks.py:176-202 | deleting exactly the purged labels from a lock that shows every due code leaves it reconciled |
| `SmartThingsLocks.Reread` | src/brands/smartthings/locks.py:168-174 | the refreshed view when the read gives one, else the view at hand |
| `SmartThingsLocks.CleanupPhase` | src/brands/smartthings/locks.py:167-202 | re-reads, then deletes only guest labels that are not active; from a reconciled lock it records nothing |
| `SmartThingsLocks.DeletionsArePurged` | src/brands/smartthings/locks.py:176-202 | every deletion entry of the cleanup names a guest label that is not active |
| `SmartThingsLocks.SyncLock` | src/brands/smartthings/locks.py:62-210 | no updates ever; additions only for due codes; deletions only for inactive guest labels; under a quiet vendor the lock ends reconciled |
| `SmartThingsLocks.PlansOf` | src/brands/smartthings/locks.py:63 | the plans of the reservations given, none when given nothing to iterate |
| `SmartThingsLocks.Sync` | src/brands/smartthings/locks.py:22-210 | an unknown location, a failed listing or a missing lock ends before any write; otherwise `SyncLock`, with the same bounds and the same reconciliation |
| `SmartThingsDevices.GetDevices` | src/brands/smartthings/smartthings.py:114-143 | `None` for an empty id or a failed listing, else the location's devices |
| `SmartThingsDevices.DeviceIdByLabel` | src/brands/smartthings/smartthings.py:145-166 | `None` iff the listing failed or no device has exactly that label, else the id of the first that has |
| `SmartThingsDevices.GetDeviceStatus` | src/brands/smartthings/smartthings.py:181-192 | the status document iff the request succeeds |
| `SmartThingsDevices.StatusWithRefresh` | src/brands/smartthings/smartthings.py:238-265 | `None` for an empty id, else the status read after the refresh command |
| `SmartThingsDevices.FindsLabelled` | src/brands/smartthings/smartthings.py:145-166 | a device listed first under its label is found by that label |
| `SmartThingsLights.GetSwitchValue` | src/brands/smartthings/lights.py:7-11 | the nested switch value, `None` when a key is missing, and the TypeError of subscribing a non-dict, `None` included |
| `SmartThingsLights.SwitchValueOf` | src/brands/smartthings/lights.py:7-11 | a status that holds a switch value gives that value back |
| `SmartThingsLights.SwitchLight` | src/brands/smartthings/lights.py:13-27 | raises iff reading the switch value raises; sends iff the value is missing or differs; an accepted switch adds one update, a refused one one error |
| `SmartThingsLights.LightOutcome` | src/brands/smartthings/lights.py:29-56 | a light without a name gives the KeyError entry; a missing location or device gives `None`; otherwise at most one entry |
| `SmartThingsLights.Sync` | src/brands/smartthings/lights.py:29-56 | looks the location and light up and switches it, as `LightOutcome` says; an update entry implies a command was sent |
| `SmartThingsLights.SettledLightIsLeftAlone` | src/brands/smartthings/lights.py:13-27 | a light already in the wanted state gets no command and no entry |
| `SmartThingsLights.UnsettledLightIsSwitched` | src/brands/smartthings/lights.py:13-27 | a light in the other state or with no readable value is switched: one update when accepted, one error when not |
| `SmartThingsThermostats.NeedsUpdating` | src/brands/smartthings/thermostats.py:116-178 | `None` iff the status is unreadable, falsy or lacks an attribute; else needed iff the current settings do not match the targets |
| `SmartThingsThermostats.ReadsBack` | src/brands/smartthings/thermostats.py:116-178 | a status document written from settings reads those settings back |
| `SmartThingsThermostats.ChangesIffNeeded` | src/brands/smartthings/thermostats.py:80-87 | a change line is listed exactly when an update is needed |
| `SmartThingsThermostats.Original` | src/brands/smartthings/smartthings.py:301-343 | `set_thermostat` knows the original settings only when the status is readable |
| `SmartThingsThermostats.StageOf` | src/brands/smartthings/thermostats.py:5-64 | how far the lookups get: no name, no location, no thermostat, no status, or a comparison with the targets |
| `SmartThingsThermostats.Decide` | src/brands/smartthings/thermostats.py:65-104 | no command when the status matches; else exactly the commands for the targets with fan "auto", one update when all are accepted, one error otherwise |
| `SmartThingsThermostats.Sync` | src/brands/smartthings/thermostats.py:5-114 | each stage ends with its entry or message, and a compared thermostat is decided as `Decide` says |
| `SmartThingsThermostats.MatchingThermostatIsLeftAlone` | src/brands/smartthings/thermostats.py:116-178 | a thermostat whose status already shows the targets needs no update |
| `WyzeThermostats.NeedsUpdating` | src/brands/wyze/thermostats.py:48-68 | raises iff the status read failed; else needed iff the settings do not match the targets |
| `WyzeThermostats.MissingSetpointNeedsUpdate` | src/brands/wyze/thermostats.py:48-68 | a target with no setpoint never matches the integer setpoints Wyze reports |
| `WyzeThermostats.Sync` | src/brands/wyze/thermostats.py:15-46 | no update is ever recorded; a missing device gives `None`; an unreadable status its error; a needed update the error of the call that cannot succeed |
| `LegacyLockSync.PlanFor` | src/lock_sync.py:123-136 | a reservation raises KeyError on a missing 'guest' or 'phone' key, AttributeError on a guest that is not a string, IndexError on a blank guest, and TypeError on a phone that is not a string; otherwise it writes "Guest <first> <yyyymmdd>" with the phone's last four characters and both ends shifted by the one offset |
| `LegacyLockSync.WindowKeepsLength` | src/lock_sync.py:129-130 | both ends move by the same offset, so the window keeps the stay's length |
| `LegacyLockSync.ShortPhoneStillWrites` | src/lock_sync.py:126 | a phone with fewer than four digits still gets a code, made of whatever it ends with |
| `LegacyLockSync.FailIndex` | src/lock_sync.py:123-154 | the position of the first reservation that raises, every one before it writing |
| `LegacyLockSync.WrittenOf` | src/lock_sync.py:123-154 | the codes wanted by the reservations before the first that raises, in order |
| `LegacyLockSync.SweptMeans` | src/lock_sync.py:113-120 | a name is recorded as deleted iff the delete of a code with that name succeeded |
| `LegacyLockSync.SweptOrNot` | src/lock_sync.py:113-120 | once `label` is bound, every delete lands in exactly one of deletions and errors |
| `LegacyLockSync.SweepSnoc` | src/lock_sync.py:113-120 | one more delete extends exactly one list, a failed one by an entry naming the loop's stale `label` |
| `LegacyLockSync.RemoveAllMeans` | src/lock_sync.py:267-281 | after the deletes, the lock holds exactly the codes whose id was not deleted |
| `LegacyLockSync.SweepOne` | src/lock_sync.py:114-120 | one delete and its entry, or the UnboundLocalError of a failed delete before any `label` |
| `LegacyLockSync.Sweep` | src/lock_sync.py:113-120 | deletes the eligible codes in order; aborts iff a delete fails while `label` is unbound; a failed delete's entry names the stale label |
| `LegacyLockSync.Outcome` | src/lock_sync.py:138-151 | a reservation records exactly one update, addition or error |
| `LegacyLockSync.OneEntryEach` | src/lock_sync.py:123-154 | the pass records exactly one entry per written reservation |
| `LegacyLockSync.AllOkTally` | src/lock_sync.py:138-151 | under a vendor that always succeeds, every label on the listing is an update, even when its window matches, and every other label an addition |
| `LegacyLockSync.DuplicateLabelsCreateTwice` | src/lock_sync.py:138-151 | two reservations with the same label absent from the listing both create it |
| `LegacyLockSync.WriteWanted` | src/lock_sync.py:138-151 | the one call for a reservation: a create when its label is absent from the listing, else an update of the first match |
| `LegacyLockSync.WriteCode` | src/lock_sync.py:229-265 | the call is logged with its answer, and when applied the lock becomes `Effect` of it |
| `LegacyLockSync.WriteOne` | src/lock_sync.py:138-151 | one call and its entry, as `Tally` says, extending the log as `WriteCalls` says |
| `LegacyLockSync.WritePass` | src/lock_sync.py:123-154 | each reservation before the first that raises makes one call, judged against the pre-deletion listing; the raise ends the pass with its text |
| `LegacyLockSync.WantedAreGuests` | src/lock_sync.py:127-128 | every label the pass writes starts with "Guest" |
| `LegacyLockSync.ClearStep` | src/lock_sync.py:138-151 | one write keeps the deleted ids and an absent name off the lock |
| `LegacyLockSync.DeleteAllStrandsGuests` | src/lock_sync.py:110-151 | with delete-all, a quiet vendor leaves no Guest code of the old listing on the lock, even one a reservation still wants, because the pass judges against the stale listing |
| `LegacyLockSync.ConfinedNone` | src/lock_sync.py:74-157 | a run that makes no call is confined to any lock |
| `LegacyLockSync.SyncLock` | src/lock_sync.py:107-157 | deletion pass, then writes against the same listing, then the summary; the unbound-label abort; under a quiet vendor no crash and the lock is the writes applied after the deletes |
| `LegacyLockSync.WriteAndReport` | src/lock_sync.py:123-157 | the reservation pass and then the summary of the four lists |
| `LegacyLockSync.VisitLock` | src/lock_sync.py:94-157 | an unreadable listing posts its message; no user id stops the run; otherwise both passes, calls confined to this lock |
| `LegacyLockSync.Visit` | src/lock_sync.py:74-157 | a gated property posts one message and makes no call; a missing lock posts one; otherwise `VisitLock` |
| `LegacyLockSync.ProcessReservations` | src/lock_sync.py:51-161 | the login and listing failures each post one message and make no call; otherwise the messages are the properties' visits in listing order (`Messages`), the run ending early only after a raise or a stop, and a gated or lockless property posting its one message; a crash is the last message; in test mode calls touch only the test lock; a quiet vendor with writable reservations never crashes |
| `LegacyLockSync.VisitAll` | src/lock_sync.py:74-157 | the loop over the properties: each visit's messages in order, the outer handler's message after a raise, nothing after a stop |
| `OldestLockSync.WindowOffsets` | src/sync-locks/sync-locks-function/lock-sync.py:107-108 | each end of the window moves by its own offset |
| `OldestLockSync.QuietPurgeIsSilent` | src/sync-locks/sync-locks-function/lock-sync.py:93-98 | a vendor that answers every delete with ErrNo 0 draws no message |
| `OldestLockSync.PurgeOne` | src/sync-locks/sync-locks-function/lock-sync.py:97-98 | one delete, its name recorded whatever the answer |
| `OldestLockSync.Purge` | src/sync-locks/sync-locks-function/lock-sync.py:93-98 | every eligible code is deleted in order and every name recorded; under a quiet vendor they are all gone |
| `OldestLockSync.RecordedOnce` | src/sync-locks/sync-locks-function/lock-sync.py:116-125 | every reservation is recorded once, as an update iff its label is on the listing, else as an addition, whatever the vendor answers |
| `OldestLockSync.PassOne` | src/sync-locks/sync-locks-function/lock-sync.py:116-125 | one create or update, recorded whatever the answer |
| `OldestLockSync.Pass` | src/sync-locks/sync-locks-function/lock-sync.py:101-125 | each reservation before the first that raises makes one call, judged against the pre-deletion listing |
| `OldestLockSync.SyncLock` | src/sync-locks/sync-locks-function/lock-sync.py:88-128 | deletion pass, then writes against the same listing, then the summary; under a quiet vendor the lock is the writes applied after the deletes |
| `OldestLockSync.SummaryReadsBack` | src/sync-locks/sync-locks-function/lock-sync.py:250-255 | the summary reads back as the three lists whenever the names and check-in dates are single lines |
| `OldestLockSync.LabelOneLine` | src/sync-locks/sync-locks-function/lock-sync.py:105-106 | a label is one line when the first ten characters of the check-in are |
| `OldestLockSync.PhantomUpdate` | src/sync-locks/sync-locks-function/lock-sync.py:88-125 | with delete-all and a quiet vendor, a label that was on the lock is reported as updated while the lock ends without it |
| `OldestLockSync.VisitLock` | src/sync-locks/sync-locks-function/lock-sync.py:76-128 | an unreadable listing posts its message; no user id stops the run; otherwise both passes, confined to this lock |
| `OldestLockSync.Visit` | src/sync-locks/sync-locks-function/lock-sync.py:55-128 | a skipped property posts one message and makes no call; a missing lock posts one; otherwise `VisitLock` |
| `OldestLockSync.ProcessReservations` | src/sync-locks/sync-locks-function/lock-sync.py:32-132 | login and listing failures post one message each; otherwise the messages are the properties' visits in listing order, the run ending early only after a raise or a stop, and a skipped or lockless property posting its one message; a crash is the last message; reservations that all write never crash it |
| `OldestLockSync.VisitAll` | src/sync-locks/sync-locks-function/lock-sync.py:55-128 | the loop over the properties: each visit's messages in order, the outer handler's message after a raise, nothing after a stop |
| `Summaries.Lines` | src/slack_notify.py:33-42 | splitting on newlines always gives at least one piece |
| `Summaries.BodyLines` | src/slack_notify.py:33-42 | the quoted items of a section are written one per line, with the rest of the message after |
| `Summaries.SectionSplits` | src/slack_notify.py:33-42 | a section followed by more text splits into the section's lines and the rest's |
| `Summaries.UnquoteQuoted` | src/slack_notify.py:33-42 | unquoting the quoted items gives the items back |
| `Summaries.ReadSectionLines` | src/slack_notify.py:33-42 | a section reads back as its items when the next line is not an item |
| `Summaries.ReadHeaderOf` | src/slack_notify.py:33-42 | the header reads back as the property's name |
| `Summaries.FourSectionsRead` | src/slack_notify.py:33-42 | the four sections read back as the deletions, updates, additions and errors they were made from |
| `Summaries.NotifyRoundTrip` | src/slack_notify.py:33-42 | the summary message reads back as the property name and the four lists |
| `Summaries.LegacyRoundTrip` | src/lock_sync.py:289-295 | the legacy script's summary reads back as the property name and the four lists |
| `Summaries.LineIndex` | src/sync-locks/sync-locks-function/lock-sync.py:250-255 | the position of the first line equal to a section title, or the end |
| `Summaries.ReadPlainLines` | src/sync-locks/sync-locks-function/lock-sync.py:250-255 | an unquoted section reads back as its items up to the next title |
| `Summaries.OldestLines` | src/sync-locks/sync-locks-function/lock-sync.py:250-255 | the oldest summary's lines are the header and the three plain sections |
| `Summaries.OldestRoundTrip` | src/sync-locks/sync-locks-function/lock-sync.py:250-255 | the oldest summary reads back as its three lists when every entry is a one-line guest name |
| `Summaries.OldestConflatesEmpty` | src/sync-locks/sync-locks-function/lock-sync.py:250-255 | the oldest summary of empty lists equals that of a list holding one empty name |
| `Light.ParseInt` | src/utilty.py:46-61 | `int(s)` succeeds exactly on an optional sign and digits with single underscores between them, surrounded by whitespace; otherwise the ValueError text; the sign gives the sign of the value |
| `Light.ParseIntToString` | src/utilty.py:46-61 | `int()` reads back `str(i)` for every integer, whatever whitespace surrounds it |
| `Light.ParseIntGrouped` | src/utilty.py:46-61 | `int()` drops an underscore between two digit groups |
| `Light.NoDigitNoInt` | src/utilty.py:46-61 | a text without digits raises the ValueError |
| `Light.ParseNatString` | src/utilty.py:46-61 | `int()` reads back the rendering of a natural number |
| `Light.ParseLocalTime` | src/utilty.py:46-61 | a clock text reads as an instant on the server's day; text without ':' raises `int()`'s ValueError when it is not an integer and IndexError when it is; a negative hour raises; a non-string cannot be split |
| `Light.ParseClock` | src/utilty.py:57-61 | in Python's evaluation order: the hour part's ValueError, then the missing minute part, then the minute's ValueError, then the hour and minute ranges; succeeds iff both parts read and are in range, giving H hours and M minutes into the server's day |
| `Light.HourText` | src/utilty.py:59-61 | `split(':')[0]` is the whole text when it holds no ':' |
| `Light.ClockOf` | src/utilty.py:57-61 | a text whose two parts read as an hour and a minute in range gives that time of the server's day |
| `Light.ParseClockText` | src/utilty.py:46-61 | "H:M" reads back as H hours and M minutes into the server's day |
| `Light.ShouldLightBeOn` | src/light.py:20-46 | on inside [start, stop) with both times, from start with only a start, before stop with only a stop, never with neither; raises iff a given time does not parse |
| `Light.DetermineLightState` | src/light.py:48-75 | a missing stop time raises KeyError; off once the stop time passed; otherwise on iff inside the window or at night |
| `Light.OnBeforeStop` | src/light.py:48-75 | before a readable stop time with no start, or inside the window, the light is on |
| `Light.DayIsIgnored` | src/light.py:48-75 | `is_day` never changes the state |
| `Light.Inside` | src/light.py:113-121 | whether the stay's window, both ends shifted by their offsets, contains now; the ValueError where a timestamp does not parse |
| `Light.FirstInside` | src/light.py:113-121 | the scan ends at the first window that contains now, at none, or at the first unreadable timestamp before either |
| `Light.Prelude` | src/light.py:77-108 | the coordinates, the sun lookups and the light's `when` must all be present before the reservations are looked at |
| `Light.GetLightSettings` | src/light.py:77-135 | at most one error, and then no change; a `when` other than the two modes changes nothing; non-reservation lights follow `determine_light_state`; reservation lights follow the first stay that holds now |
| `Light.ScanWindows` | src/light.py:113-121 | the loop over the stays ends as `FirstInside` says |
| `Light.FirstInsideAt` | src/light.py:113-121 | once the first i verdicts miss, the i-th decides the scan when it is decisive |
| `Light.ChangesOnlyDuringStays` | src/light.py:110-121 | with readable timestamps, a reservations-only light changes state exactly when some stay's window holds now |
| `Battery.Plus` | src/battery_monitor.py:54 | Python's `+`: numbers (booleans as 0 and 1) add, two strings or two lists concatenate, anything else raises the TypeError whose text depends on the left operand |
| `Battery.Thresholds` | src/battery_monitor.py:50-54 | a lock without settings uses threshold 30 and warning 30 + 15; numeric settings give the threshold and threshold + offset; it raises exactly when `Plus` does |
| `Battery.FlagsExclusive` | src/battery_monitor.py:65-66 | no level is both low and in warning, and a missing level is neither |
| `Battery.BrandSettingsFor` | src/lock_battery_monitor.py:58-64 | only for a SmartThings lock with settings, the first entry whose brand is 'smartthings', else `None` |
| `Battery.Level` | src/lock_battery_monitor.py:185-222 | an unknown brand gives `None`, and so does every SmartThings read of the lock-battery monitor, whose reader gets one argument too many |
| `Battery.Contribute` | src/battery_monitor.py:39-89 | an invalid configuration gives one error; a valid one with adding thresholds one record with its name, brand, property, thresholds, level and flags |
| `Battery.GetAllBatteryLevels` | src/battery_monitor.py:24-91 | every configuration is visited in order, an exception in one not stopping the loop; the lists are `Collected` of them |
| `Battery.OneRecordPerLock` | src/battery_monitor.py:39-89 | one record per counted configuration; every configuration leaves an entry; every invalid one an error |
| `Battery.RecordsClassified` | src/battery_monitor.py:56-66 | every record carries the property's name and flags that follow its level and thresholds |
| `Battery.Matching` | src/battery_monitor.py:106 | `property_locks` holds exactly the records of the property |
| `Battery.Lows` | src/battery_monitor.py:113 | `low_battery_locks` holds exactly the low records with a level |
| `Battery.Warnings` | src/battery_monitor.py:114 | `warning_locks` holds exactly the warning records with a level |
| `Battery.BuildMessageParts` | src/battery_monitor.py:117-162 | the lines appended are exactly `ReportLines` of the property's records |
| `Battery.SendBatteryReport` | src/battery_monitor.py:93-173 | no message iff the property has no record; otherwise the lines joined by newlines |
| `Battery.ReportShape` | src/battery_monitor.py:117-162 | the status list has one line per record and the last line counts the records, the low ones and the warnings |
| `Battery.AlertsAndWarningsDisjoint` | src/battery_monitor.py:113-114 | the alert and warning sections never list the same record |
| `PropertiesImport.EmptyLiteralsBracketed` | scripts/properties-import/import.py:85-109 | both spellings of the empty list and dict are bracketed texts |
| `PropertiesImport.UndoubleDouble` | scripts/properties-import/import.py:103 | cleaning doubled quotes undoes the CSV escaping: the text the writer meant comes back |
| `PropertiesImport.UndoubleKeeps` | scripts/properties-import/import.py:103 | a text without a doubled quote is left as it is |
| `PropertiesImport.ParseJsonField` | scripts/properties-import/import.py:85-109 | a blank cell is `None`; the empty literals are the empty list or dict; a bracketed text is its parse after cleaning, or itself when that fails; anything else unchanged |
| `PropertiesImport.Detect` | scripts/properties-import/import.py:111-148 | blank is `None`; a 'Boolean' hint decides by `== 'true'` or truthiness; a parsed structure wins; then boolean words, digit strings as integers, texts with '.' as floats, and the text itself |
| `PropertiesImport.NumeralReadsBack` | scripts/properties-import/import.py:111-148 | the text of a natural number converts back to that integer |
| `PropertiesImport.BooleanWordsConvert` | scripts/properties-import/import.py:111-148 | "true" and "false" in any case convert to the boolean they name |
| `PropertiesImport.Store` | scripts/properties-import/import.py:175-178 | lists and dicts are stored as their JSON text, every other value as it is |
| `PropertiesImport.Hint` | scripts/properties-import/import.py:166-169 | the cell of the column's `@type` column, when there is one and it is present |
| `PropertiesImport.EntityOf` | scripts/properties-import/import.py:150-181 | the entity has exactly the kept columns, each holding its converted cell, none a list or a dict |
| `PropertiesImport.ProcessEntity` | scripts/properties-import/import.py:150-181 | the loop over the columns builds exactly `EntityOf` the row |
| `PropertiesImport.Keyed` | scripts/properties-import/import.py:237-240 | the same columns; PartitionKey and RowKey, when present, as their `str`; every other column unchanged |
| `PropertiesImport.StringifyKeys` | scripts/properties-import/import.py:237-240 | the statements build exactly `Keyed` of the entity |
| `PropertiesImport.TextKeysUnchanged` | scripts/properties-import/import.py:237-240 | a key that already holds a string is stored as it is |
| `PropertiesImport.KeyedStaysFlat` | scripts/properties-import/import.py:237-240 | stringifying the keys keeps the entity free of lists and dicts |
| `PropertiesImport.AcceptedBounds` | scripts/properties-import/import.py:231-251 | nothing accepted counts nothing; everything accepted counts every row |
| `PropertiesImport.ImportRows` | scripts/properties-import/import.py:231-251 | one entity per row, sent in order with its keys stringified; the count is the number the table accepted, at most the rows |
| `SyncDriver.Subscript` | src/sync.py:254-270 | `v[key]` succeeds iff `v` is a dict holding the key |
| `SyncDriver.ColumnOf` | src/sync.py:251 | `property[column]` succeeds iff the column is present |
| `SyncDriver.Elements` | src/sync.py:251-254 | a list's items; the error of subscripting a string's or dict's first element otherwise |
| `SyncDriver.Selected` | src/sync.py:67-109 | exactly the active entries whose stored column for a requested collection is truthy, in table order |
| `SyncDriver.SelectedOnce` | src/sync.py:93-103 | an entry is selected at most once |
| `SyncDriver.RequestedBy` | src/sync.py:93-103 | the inner loop finds a match iff the entry's stored column for a requested collection is truthy |
| `SyncDriver.EmptyListTextCounts` | src/sync.py:93-103 | a column stored as the text "[]" counts as configured, since the table holds the text and not the list |
| `SyncDriver.ActiveProperty` | src/sync.py:67-109 | the entries yielded are exactly `Selected` |
| `SyncDriver.SettingsIn` | src/sync.py:111-126 | the first entry whose brand matches, `None` when every entry names another, the exception of an entry without a brand before that |
| `SyncDriver.FindsSettings` | src/sync.py:111-126 | the first entry that names the brand is found, whatever follows it |
| `SyncDriver.GetSettings` | src/sync.py:111-126 | a property without BrandSettings raises KeyError, else the loop over its entries |
| `SyncDriver.SmartThingsLocation` | src/sync.py:266-268 | the location of the SmartThings settings; subscripting missing settings raises TypeError |
| `SyncDriver.LockStep` | src/sync.py:255-270 | reading the brand and name may raise; a Wyze lock calls the Wyze engine with the delete-all flag; a SmartThings lock the SmartThings engine with its location; any other brand makes no call |
| `SyncDriver.LockAdvance` | src/sync.py:254-276 | each lock's turn adds at most one call |
| `SyncDriver.LocksUpToFacts` | src/sync.py:254-276 | at most one call per lock, every Wyze call with the run's delete-all flag, and an unknown brand's lists are the last call's |
| `SyncDriver.LocksInOrder` | src/sync.py:254-276 | with known brands and readable settings, one call per lock in order, and the lists are their results in turn |
| `SyncDriver.UnknownFirstLockRaises` | src/sync.py:272-276 | a first lock of an unknown brand raises UnboundLocalError |
| `SyncDriver.UnknownLockRepeats` | src/sync.py:272-276 | a lock of unknown brand after a known one adds that lock's results a second time without a call |
| `SyncDriver.ProcessPropertyLocks` | src/sync.py:224-276 | raises iff the loop raises; otherwise the calls made and the caller's lists extended by theirs |
| `SyncDriver.LockTurn` | src/sync.py:255-276 | one turn: the lock's call, or the last results again |
| `SyncDriver.RunLocks` | src/sync.py:254-276 | the loop ends as `LocksUpTo` says: raising with its exception, or the calls and the lists extended |
| `SyncDriver.FailureSticks` | src/sync.py:254-276 | once the loop raised, later locks change nothing |
| `SyncDriver.ExtendNothing` | src/sync.py:273-276 | extending by empty lists, or extending empty lists, changes nothing |
| `SyncLights.Repr` | src/sync.py:308 | `repr` of a string begins and ends with its quote character |
| `SyncLights.ReprReadsBack` | src/sync.py:308 | reading a `repr` literal gives back the string it was made of |
| `SyncLights.ListRepr` | src/sync.py:308 | `str` of a list of errors is bracketed, and `[]` for none |
| `SyncLights.OneErrorShown` | src/sync.py:308 | a one-error list shows as that error's literal in brackets, which reads back as the error |
| `SyncLights.LightStep` | src/sync.py:299-316 | the logger's subscripts may raise; a light with setting errors adds one nested entry and no call; a needed SmartThings switch calls the engine with the location of the settings |
| `SyncLights.LightsUpTo` | src/sync.py:299-316 | at most one call per light, no deletions or additions, and every call is a light whose setting asks for a switch to its state |
| `SyncLights.LightWithErrorsNotSwitched` | src/sync.py:307-308 | a light whose setting has errors is never switched and adds exactly one error entry |
| `SyncLights.LightsFailureSticks` | src/sync.py:299-316 | once the loop raised, later lights change nothing |
| `SyncLights.ProcessPropertyLights` | src/sync.py:278-316 | raises iff the loop raises; otherwise the switches made and the caller's lists extended by every light's entries |
| `SyncLights.SwitchLights` | src/sync.py:299-316 | the loop over the lights: raises iff `LightsUpTo` fails, with its text; otherwise its switches and the caller's lists extended by its entries |
| `SyncThermostats.ScanFindsStay` | src/sync.py:349-367 | with readable times and filters, the scan finds a stay iff a later reservation is under way today, the first such giving the start day |
| `SyncThermostats.HasReservationIff` | src/sync.py:348-369 | a stay is under way iff some reservation's dates hold today, and then the reservations-only temperatures apply |
| `SyncThermostats.VisitReservation` | src/sync.py:349-367 | one turn: both times, then the break on a stay under way or the filter of a miss |
| `SyncThermostats.ReservationGate` | src/sync.py:348-369 | the loop with its break ends as `GateOf` says |
| `SyncThermostats.Apply` | src/sync.py:377-448 | an applied thermostat had a target and passed the frequency check; a SmartThings call carries the target; an unknown brand reuses the last lists; a Wyze thermostat always raises the TypeError of the extra argument |
| `SyncThermostats.ThermostatStep` | src/sync.py:341-448 | the subscripts and the gate must succeed; outside its hours the thermostat is skipped; an applied thermostat was inside them |
| `SyncThermostats.ThermostatTurn` | src/sync.py:341-448 | one thermostat with the loop run as written ends as `ThermostatStep` says |
| `SyncThermostats.ThermostatsUpTo` | src/sync.py:341-448 | at most one call per thermostat, no deletions or additions, every call for this property |
| `SyncThermostats.OutsideHoursChangesNothing` | src/sync.py:373-376 | a thermostat outside its hours changes neither the lists nor what a later unknown brand reuses |
| `SyncThermostats.ThermostatsFailureSticks` | src/sync.py:341-448 | once the loop raised, later thermostats change nothing |
| `SyncThermostats.ProcessPropertyThermostats` | src/sync.py:318-448 | fails iff the loop raises, with its text where tracked; otherwise the calls made and the caller's lists extended |
| `SyncThermostats.RunThermostats` | src/sync.py:341-448 | the loop ends as `ThermostatsUpTo` says |
| `SyncRun.PropertyId` | src/sync.py:187 | `None` iff no listed property has the name, else the id of a listed one with it |
| `SyncRun.FirstIdWins` | src/sync.py:187 | the first match wins, whatever is listed after it |
| `SyncRun.FindPropertyId` | src/sync.py:187 | the generator stops at the first match, as `PropertyId` says |
| `SyncRun.Early` | src/sync.py:199-204 | the two passes succeed iff the lights' and the thermostats' do, and the lists are theirs one after another |
| `SyncRun.SummaryNamesAppend` | src/sync.py:215-216 | the summaries of two runs of messages are each one's in turn |
| `SyncRun.Closing` | src/sync.py:199-216 | a crash iff a pass raised, and then it is the last message; everything before it is a notice; the summary carries the property's name and lists and is sent iff due |
| `SyncRun.PropertyRun` | src/sync.py:180-216 | a skipped property gets only the skip notice; a crash iff the last message is one; only notices before the last |
| `SyncRun.PropertySummary` | src/sync.py:180-216 | a property not skipped ends the run iff a pass raises; otherwise its summary carries the three passes' lists and is sent iff due |
| `SyncRun.ContinueKeepsShape` | src/sync.py:180-216 | one more property keeps the run's messages shaped |
| `SyncRun.RunOver` | src/sync.py:180-222 | an exception is the last message, and the run says it crashed exactly then |
| `SyncRun.RunStep` | src/sync.py:180-216 | the loop goes one property further |
| `SyncRun.Run` | src/sync.py:128-222 | a failed Hospitable login, an empty listing or a failed Wyze login sends one message and ends the run |
| `SyncRun.CrashSticks` | src/sync.py:220-222 | once a property ended the run, later properties send nothing |
| `SyncRun.EveryPropertySummarised` | src/sync.py:215-216 | in production with the always-send flag, a run without exception sends one summary per property, in order |
| `SyncRun.NonProdSummarisesOnlyTest` | src/sync.py:194-196 | in non-production mode only the test property is summarised |
| `SyncRun.ProcessDevices` | src/sync.py:199-204 | the two passes as written end as `Early` says |
| `SyncRun.CloseProperty` | src/sync.py:206-216 | the notice, the locks and the summary as written end as `Closing` says |
| `SyncRun.ProcessProperty` | src/sync.py:180-216 | one property as written ends as `PropertyRun` says |
| `SyncRun.ProcessProperties` | src/sync.py:180-216 | the loop as written sends the messages `RunOver` says |
| `SyncRun.ProcessReservations` | src/sync.py:128-222 | the whole run as written sends the messages `Run` says |

## Behaviour as written

The model keeps each of the following behaviours of the code as written.

- **Guest code labels.** The label is "Guest <first name> <yyyymmdd>", with a space before the date (src/brands/wyze/locks.py:148-149). `Reservations.LabelIsGuest` and `Reservations.ParseMadeLabel` state this form.
- **SmartThings lock listing.** `get_locks` never answers `None`: iterating a failed device listing raises (src/brands/smartthings/smartthings.py:513-518). An unreadable listing therefore gives the one "Error in SmartThings Lock function" entry, not empty lists. `SmartThingsCloud.ListingUnder` and `SmartThingsLocks.Sync` state this.
- **Lock brands in `sync.py`.** A lock of an unknown brand gets no call, but the loop appends `deletions`/`updates`/`errors` again (src/sync.py:272-276).
  - After a known lock, that repeats the last lock's results (`SyncDriver.UnknownLockRepeats`).
  - As the first lock, it raises UnboundLocalError (`SyncDriver.UnknownFirstLockRaises`).
  - Thermostats of an unknown brand reuse the last lists the same way (`SyncThermostats.Apply`).
- **Wyze thermostats.** `sync.py` calls the Wyze thermostat `sync` with one argument more than it takes (src/sync.py:431-432 against src/brands/wyze/thermostats.py:15). Every Wyze thermostat that is due raises TypeError ("sync() takes 6 positional arguments but 7 were given"). The handler of `process_reservations` (src/sync.py:220-222) catches it, so the run ends with the message "Error in process_reservations: " and that text. The property gets no summary and later properties are not processed (`SyncThermostats.Apply`, `SyncRun.Closing`, `SyncRun.CrashSticks`).
- **Light errors.** The errors of a light's settings are appended as one entry holding the printed list, brackets included (src/sync.py:308; `SyncLights.ListRepr`, `SyncLights.OneErrorShown`).
- **Message texts kept as written.**
  - The SmartThings light error text reads "SmatThings" (src/brands/smartthings/lights.py:52; `SmartThingsLights.LightFailure`).
  - The icon of a low battery level is U+FFFD (src/battery_monitor.py:143; `Battery.StatusLine`).
- **Lock battery monitor, SmartThings.** The monitor's SmartThings reader is called with one argument too many, so its level is always `None` (src/lock_battery_monitor.py:185-222; `Battery.Level`).
- **Offsets in src/lock_sync.py.** The check-out offset is read from `CHECK_IN_OFFSET_HOURS` (src/lock_sync.py:20). Both ends of a window therefore move by the same offset (`LegacyLockSync.WindowKeepsLength`).
- **Failed deletes in src/lock_sync.py.** The error entry of a failed delete names the loop variable `label`, which is left over from an earlier loop (`LegacyLockSync.Sweep`, `LegacyLockSync.SweepSnoc`).
  - If no such loop has run, reading `label` raises UnboundLocalError and ends the run (`LegacyLockSync.SweepOne`).
- **Delete-all in the older scripts.** Both older scripts can delete every code first and then judge the reservations against the listing read before the deletions.
  - src/lock_sync.py sends updates to codes that are gone. Its lock ends without the guest codes the reservations still want (`LegacyLockSync.DeleteAllStrandsGuests`).
  - The oldest script reports such a label as updated although the lock ends without it (`OldestLockSync.PhantomUpdate`).
- **Zero verify attempts.** A verify-attempt maximum of 0 leaves `verify_attempt` unbound, and the add path raises UnboundLocalError (`WyzeLocks.AddWithRetry`, `SmartThingsLocks.AddAttempt`).

## Left out

- **Vendor and service I/O.** HTTP, the Wyze SDK, the Hospitable API, Azure Key Vault, Azure Table storage and the Slack client are not modelled as such.
  - Their answers are parameters or fault scripts.
  - The Slack messages of the runs in src/sync.py, src/lock_sync.py and the oldest script, and of the battery report, are returned as values rather than sent.
  - Logging, `time.sleep` between retries, and the entry points (function triggers, command lines) are left out.
- **Environment settings.** `os.environ` reads are parameters of the operations that use them.
- **Wall clock.** `datetime.now()` is a parameter holding the current instant. Time zones are not modelled: every timestamp is naive local time.
- **Parsing leniency.** `Clock.ParseDateTime` accepts only the zero-padded form "YYYY-MM-DDTHH:MM:SS", with the separator 'T' or 't' (the pattern ignores letter case). Python's `strptime` also accepts some unpadded fields (a one-digit field, a day written as a space and a digit), and the model rejects those.
- `Clock.BadTimestamp`: for a text whose month, day, hour or minute is unpadded, it gives the no-match text; Python reads such fields with the one-digit alternatives and may parse the text or raise another of the texts. The no-match text quotes `s` between single quotes, which is Python's repr only when `s` holds no quote, backslash or control character. This text reaches `WyzeLocks.PlanFor`, `SmartThingsLocks.PlanFor`, `LegacyLockSync.PlanFor`, `Light.Inside`, `SyncThermostats.Scan` and `SyncThermostats.VisitReservation`.
- **Character classes.** `str.isdigit` and `str.lower` are modelled for ASCII only (`Common.Digits`, `Common.Lower`). `str.isspace` is modelled with its exact character set.
- **Floating point.** Floats in the properties import are known only by their repr, which `float` (a parameter) supplies. pandas' float columns and NaN are reduced to a missing cell.
- **Python reprs.** Where an error text embeds a Python repr of a vendor response (`{'ErrNo': n}`, a list of strings), the model builds it for the shapes that occur. General `repr` is not modelled.
- **JSON.** `json.loads` and `json.dumps` are parameters of the properties import. Device configurations and listings are given already decoded as `Json` values.
- **`get_connection_string` and the table client setup** in scripts/properties-import/import.py are left out: they are credentials and I/O.
- **Device setting oracles.** The light settings, the thermostat targets and the thermostat frequency rules (src/thermostat.py, and the sunrise/sunset lookups that src/light.py makes) are parameters of the passes that use them. What `src/light.py` decides from their answers is modelled.
- **Temperature alerts.** The alerts of src/sync.py:385-427 are not part of this model. They depend on float thermostat readings and send Slack messages only.
- **Exception texts.**
  - The texts of the exceptions `filter_by_key` and `is_valid_hour` can raise are not tracked; the model records only that they raise.
  - UnboundLocalError texts use the wording of Python 3.11.
- **Hospitable listings.** Listing entries are taken to carry an `id` and a `name`.
- `Utility.SubtractStringLists`: lists each element at its first occurrence in `list1`. Python's set order depends on string hashes, so the source promises no order.
- **Slack messages sent from inside the engines.** These are not modelled. Their texts duplicate the error entries the engines return:
  - `WyzeLocks.Sync` (src/brands/wyze/locks.py:53,65,76,185,199,212,241);
  - the Wyze SDK wrappers, whose raises become fault-script answers (src/brands/wyze/wyze.py:133,155,173);
  - `SmartThingsLocks.Sync` (src/brands/smartthings/locks.py:47-208);
  - `SmartThingsLights.Sync` (src/brands/smartthings/lights.py:39,45,55);
  - `Light.GetLightSettings` (src/light.py:133);
  - `WyzeThermostats.Sync` (src/brands/wyze/thermostats.py:25,44).
- `Light.GetLightSettings`: does not model the Slack message sent on the exception path (src/light.py:133); the error value it returns is modelled.
- `WyzeThermostats.Sync`: does not model the Slack messages sent when the thermostat is not found and when the handler catches an exception (src/brands/wyze/thermostats.py:25,44); the outcomes it returns are modelled.
- **Reservation fields.** Check-in and check-out are always strings. A missing or `None` check-in would raise at src/brands/wyze/locks.py:149 into the outer handler, and that path is not modelled. A guest or phone holding a list or a dict is not modelled either; `Reservations.Field` covers a missing key, `None`, booleans, integers and strings.
- `Light.ParseInt`: `int()` is modelled for ASCII digits only; Python also accepts other Unicode decimal digits.
- `Light.BadLiteral`: the ValueError text quotes the input between single quotes, which is Python's repr only when the text holds no quote, backslash or control character (repr escapes a newline as `\n` and a tab as `\t`).
- **Concurrency and retries over time.** Runs are modelled one at a time. The vendors' own eventual consistency is modelled only through the stale-listing fault.
