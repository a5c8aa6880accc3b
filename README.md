# Machine-status alarm notifications

A model of the alarm-notification engine of a machine-monitoring backend.
When a new status arrives for a machine, `MachineStatusSender` decides who is
pushed a notification and with what text. It takes these steps in order:

1. **Delta gate.** It removes from the new status, in place, every alarm
   whose id the previous status already had.
2. **Run gate.** If that removed anything, or no alarm is left, it stops.
3. **Audience.** It keeps the company's users who have at least one device
   token and do not blacklist the machine.
4. **Alarm filter.** It gives each such user a private copy of the alarms,
   minus the alarm ids that user blacklists.
5. **Text.** It builds a title from the machine name and its four signal
   lights, and a body listing at most three alarms plus a `+ N` marker.
6. **Dispatch.** It pushes one message per (user, device token) pair and
   saves a sent-notification record for each push the transport accepted.

The project is organised in modules:

- `Domain` holds the entities. The status is a class because its alarm list
  is shortened in place.
- `Alarms` holds the by-id removal and the delta gate.
- `Audience` holds the machine-level and alarm-level filters.
- `Composer` holds the title, the body and decimal printing.
- `Dispatch` holds the push plan, the records kept for a plan, the push
  transport and the record store.
- `Sender` holds the `MachineStatusSender` class. It is not a one-to-one copy
  of the source's methods:
  - `RemoveAlreadyNotifiedAlarms`, `BuildMachineStatusTitle`,
    `GetUsersToNotifyWithFilteredAlarms`, `BuildMachineStatusMessage` and
    `Run` are the source's methods of those names.
  - `filterUsersWithoutBlacklistedMachines` and `checkIfAlarmIsInBlacklist`
    compute values without changing anything. They are the functions
    `Audience.UsersWithoutBlacklistedMachines` and
    `Audience.AlarmIsInBlacklist`.
  - `buildFirebaseMessage` is the `Message` value itself.
  - `AppendChannel` stands for the pair of `if` appends for one light.
  - `SendToToken`, `NotifyUser` and `NotifyAll` stand for the bodies of the
    inner lambda, the outer lambda and the outer `forEach` in `run`.

The transport is an oracle. Each `Send` either goes through or fails, and
the model records which in the transport's `attempts` log. `Run` is proved
against the plan of pushes: for any sequence of outcomes, the log is the plan
with those outcomes, and the store gains exactly the records of the successful
pushes.

One behaviour of the source is kept as written. When there is no previous
status and the new status has no alarm, the skip branch's log line reads the
missing previous status and throws. `Run` reports that case as `threw`.

## Model

| member | source | states |
|---|---|---|
| Alarms.IdsOf | MachineStatusSender.java:139-141 | an id is among the previous status's ids exactly when some previous alarm carries it |
| Alarms.WithoutIds | MachineStatusSender.java:138-142 | `removeIf` by id: an alarm survives exactly when it was present and its id is not matched; descriptions play no part; never longer than the input |
| Alarms.WithoutIdsAppend | MachineStatusSender.java:138-142 | removal distributes over concatenation, so survivors keep their relative order |
| Alarms.WithoutIdsKeepsAll | MachineStatusSender.java:138-142 | the list keeps its length exactly when no id matches, and is then unchanged |
| Alarms.RemoveMatchingIds | MachineStatusSender.java:138-142 | the loop keeps exactly `WithoutIds`, and reports removal exactly when the list got shorter, exactly when some alarm's id matched |
| Alarms.AlarmDelta | MachineStatusSender.java:131-143 | without a previous status nothing is removed and the result is false; otherwise an alarm remains exactly when no previous alarm has its id, and the result is true exactly when something was removed |
| Audience.UsersWithoutBlacklistedMachines | MachineStatusSender.java:87-103 | a user is in the audience exactly when it is a company user with a configuration, at least one token, and the machine's id not blacklisted; never longer than the input |
| Audience.AudienceAppend | MachineStatusSender.java:87-103 | the filter distributes over concatenation: the audience is in the company users' order |
| Audience.AudienceMultiplicity | MachineStatusSender.java:87-103 | the filter never repeats a user, and keeps a list without duplicates free of them |
| Audience.Recipients | MachineStatusSender.java:64-84 | one entry per audience user, in order, even when every alarm is blacklisted; an alarm is in a user's copy exactly when it is in the status and its id is not on that user's alarm blacklist |
| Audience.RecipientsIndependent | MachineStatusSender.java:64-76 | a user's entry depends on that user alone, not on the others in the audience |
| Audience.RecipientAlarmsInOrder | MachineStatusSender.java:68-69 | a user's filtered copy keeps the status's alarm order |
| Composer.Title | MachineStatusSender.java:145-168 | a title always has something after the machine name and the separator: a glyph for a lit channel or the all-off glyph |
| Composer.ParseChannelText | MachineStatusSender.java:158-165 | one channel's text (nothing, the glyph, or the glyph and `(blinking)`) reads back as that light state |
| Composer.ParseLightsText | MachineStatusSender.java:151-166 | the text of the four channels in fixed order, plus the all-off glyph, reads back as the four lights |
| Composer.TitleDeterminesLights | MachineStatusSender.java:145-168 | two titles for the same machine name are equal only when all four lights are equal |
| Composer.AllOffMarker | MachineStatusSender.java:151-166 | the all-off glyph is present exactly when all four lights are off, and is then the whole light text |
| Composer.NatToString | MachineStatusSender.java:115 | a count prints as a non-empty string of decimal digits, without a leading zero, as Java prints an int |
| Composer.ParseNatToString | MachineStatusSender.java:115 | the printed count reads back as the same number |
| Composer.AppendAlarmLines | MachineStatusSender.java:118-123 | appending alarm lines keeps the text already there as a prefix |
| Composer.AppendAlarmLinesStep | MachineStatusSender.java:118-123 | each loop step appends exactly the next `id \| description` line |
| Composer.Overflow | MachineStatusSender.java:113-116 | the overflow marker is empty exactly when there are at most three alarms, and otherwise starts with `+` |
| Composer.Body | MachineStatusSender.java:106-129 | the body is empty exactly when the status has no alarm, whatever the user's own list; otherwise it starts with `ERR:` and a newline |
| Composer.BodyLineCount | MachineStatusSender.java:106-129 | with single-line alarm texts, the body has the ERR line plus one line per listed alarm, at most three |
| Composer.BodyOverflow | MachineStatusSender.java:113-126 | with more than three alarms, the body is the first three lines followed by `+ ` and the count of the alarms left out, and that count reads back |
| Composer.BodyShort | MachineStatusSender.java:113-127 | with at most three alarms, none included, the body is the ERR line followed by exactly those alarms' lines, with no overflow marker |
| Dispatch.Deliveries | MachineStatusSender.java:19-25 | the pushes of a run number exactly the (recipient, token) pairs, and every push carries the run's title |
| Dispatch.DeliveryAt | MachineStatusSender.java:19-25 | there are exactly as many pushes as (recipient, token) pairs, and each pair's push sits at its own position with that token, the run's title and that recipient's body |
| Dispatch.DeliveriesMembers | MachineStatusSender.java:19-25 | every push goes to a recipient, on one of its tokens, with the run's title and that recipient's body |
| Dispatch.AttemptsAppend | MachineStatusSender.java:19-34 | the transport log of a plan made of two parts is the log of the first part followed by the log of the second |
| Dispatch.Confirmed | MachineStatusSender.java:26-38 | the records saved number exactly the successful pushes, never more than the pushes |
| Dispatch.ConfirmedAppend | MachineStatusSender.java:26-38 | the records of a plan made of two parts are the first part's records followed by the second's, so a failure affects only its own push |
| Dispatch.ConfirmedExact | MachineStatusSender.java:26-38 | a record is saved exactly for each push that went through: as many records as successes, and a record exists exactly when some successful push carries that message and user |
| Dispatch.RecordStep | MachineStatusSender.java:26-38 | one more push extends the log by one attempt, and the records by one record when it went through and by none when it failed |
| Dispatch.FirebaseMessaging.Send | MachineStatusSender.java:30-34 | a send adds exactly one attempt, with its outcome, to the transport's log |
| Dispatch.SentNotificationRepository.Save | MachineStatusSender.java:37 | a save appends exactly one record |
| Sender.MachineStatusSender.RemoveAlreadyNotifiedAlarms | MachineStatusSender.java:131-143 | the status's alarm list becomes what the delta gate leaves, and the result says whether it removed anything |
| Sender.MachineStatusSender.AppendChannel | MachineStatusSender.java:158-165 | the two appends for one channel add exactly that channel's text |
| Sender.MachineStatusSender.BuildMachineStatusTitle | MachineStatusSender.java:145-168 | the title built by the appends is the title of the machine name and the status's lights |
| Sender.MachineStatusSender.GetUsersToNotifyWithFilteredAlarms | MachineStatusSender.java:64-76 | the loop yields one entry per audience user with the status's alarms minus that user's blacklist; the status is not changed |
| Sender.MachineStatusSender.BuildMachineStatusMessage | MachineStatusSender.java:106-129 | the counter loop with the `+ N` suffix at the third line yields exactly the body |
| Sender.MachineStatusSender.SendToToken | MachineStatusSender.java:23-38 | one push is attempted with the token, the title and the user's body, and a record is saved only when it went through |
| Sender.MachineStatusSender.NotifyUser | MachineStatusSender.java:22-39 | every token of the user is pushed once, in order, and the records are exactly those of the successful pushes |
| Sender.MachineStatusSender.NotifyAll | MachineStatusSender.java:19-40 | every (recipient, token) pair is pushed once, recipient by recipient, and a failure does not stop the pushes that follow |
| Sender.MachineStatusSender.Run | MachineStatusSender.java:12-45 | the status keeps what the delta gate leaves; if the gate removed anything or nothing is left, nothing is pushed or saved, and it throws exactly when there is no previous status; otherwise the pushes are the plan for the title, the audience and the filtered alarms, and the records are those of the successful pushes |
| Sender.DeliveredOnlyToEligible | MachineStatusSender.java:16-22 | every push of a run goes to a company user who has a token and does not blacklist the machine |

## Left out

- NotificationService.java is not part of this model. It looks up the machine and the statuses and hands the sender to a thread pool; it has no notification logic.
- The user lookup `findByCompanyId(stringToObjectId(companyId))` (MachineStatusSender.java:88-89) is an input: the sender is given the company's users as a sequence.
- The Firebase `Message` and `Notification` builders (MachineStatusSender.java:47-52) are foreign library code. A message is modelled as its token, title and body.
- The parallel streams (MachineStatusSender.java:66, 90) are modelled as sequential maps and filters. `toList()` keeps the input order either way, and each user is handled independently.
- Logging is left out. The one log line that changes behaviour, the skip branch's dereference of a missing previous status (MachineStatusSender.java:43), is modelled as `threw`.
- The transport is an oracle: whether a push goes through is not up to the engine. Only `FirebaseMessagingException` is modelled as a failed push. Any other exception from the transport or the store would end the run, and this is not modelled.
- `@Transactional` and the store's persistence are left out. The store is a sequence of saved records.
- The user's tokens are a sequence. The iteration order of the source's token collection is not modelled: the model's order stands for whatever order it has.
- Blacklisted machines and alarms are modelled by their ids alone, because the source compares only ids (MachineStatusSender.java:83, 99).
- References the source dereferences without a null check are taken as non-null, so the exception a null would raise is not modelled. These are:
  - a user's token collection (MachineStatusSender.java:22, 92);
  - the blacklist collections (:81-83, :97-99);
  - the four lights (:151-154);
  - the current status's alarm list (:14, :68, :107, :138);
  - the previous status's alarm list (:136, :139).
- A missing user configuration is modelled as `None`. The source checks for it only in the audience filter (:92), and the model does the same there. Elsewhere the source dereferences it without a check (:22, :80):
  - `Audience.BlacklistedAlarmIds`, `Audience.AlarmIsInBlacklist`, `Audience.Recipients` and `Sender.MachineStatusSender.GetUsersToNotifyWithFilteredAlarms` require a configuration.
- Dispatch.TokensOf: returns no tokens for a user without a configuration, where the source throws at MachineStatusSender.java:22.
- Sender.MachineStatusSender.NotifyUser: for a recipient without a configuration, promises no sends instead of the exception the source raises at MachineStatusSender.java:22. `Run` never reaches this case, because its audience holds only configured users.
- The status's nested status object is flattened. The machine status holds the machine id, the four lights and the alarm list directly.
- Sender.MachineStatusSender.Run: the outcomes of the pushes are a ghost result, because the source does not return them.
- Composer.BodyLineCount: the line count holds only when alarm ids and descriptions contain no newline; the source does not restrict them.
