# Emergency notification system: a verified model

This project models the core of the emergency notification system: the PostgreSQL store with its keys and
referential actions, the managers that run transactions on it, the Telegram subscription bot, the `SendBatch`
protocol, and the JSON schemas. It proves what the service promises over every input, every history of
transactions and every interleaved run, and, where the code falls short of the promise, exactly when it does.

Verify everything with `dafny verify --resource-limit 2000000 --verification-time-limit 0 dfyconfig.toml` (Dafny 4.11).

## How the model is built

| layer | files | content |
|---|---|---|
| store | `Tables`, `Cascade`, `Deletions` | the eleven tables as one value, the constraints, ON DELETE CASCADE and SET NULL (section 11.8 of ISO/IEC 9075-2) |
| requests | `Requests`, `RequestEffects`, `Storage`, `UserManager`, `TemplateManager`, `RecipientManager`, `GroupManager`, `NotificationsManager`, `TelegramBot` | each operation as a function on a committed database, and the manager classes, which work on transactions and are proved to do what the function says |
| histories | `History`, `Footprints`, `SchemaIntegrity`, `Coherence`, `Identity`, `Tenancy`, `Drafts`, `CredentialHistory`, `Removals`, `LastWrites`, `Subscriptions` | what holds after every sequence of committed transactions |
| protocol | `Outreach`, `Protocol`, `ProtocolSafety`, `Runs`, `ProtocolTheorems`, `Isolation`, `SharedTemplates`, `SharingRuns`, `StaleCommands`, `LateMessages`, `BatchEntry`, `DoubleEntry`, `UndisturbedCall`, `OverlappingCalls` | the query of `SendBatch` against a set of targets, and `SendBatch` step by step, interleaved with everything else |
| codec | `Json`, `Codec` | strict base objects, open layers, merge-based serializers |

The database is a value (`Tables.Db`), because a transaction works on a copy of it that is committed or dropped as a
whole. The classes `Cluster`, `Transaction`, the managers and `TelegramBot` hold what the program changes in place:
the committed database, the working copy, and the messages that were sent.

Modelling assumptions:

- One committed transaction is one atomic step. A transaction that is not committed leaves no trace.
- Ids, salts, timestamps and the success of a Telegram request are parameters. Where a theorem needs it, a history is
  `Fresh`: no id is drawn twice, as UUID version 7 promises (section 5.7 of RFC 9562). Constraint violations are
  modelled for every id all the same.
- A read from a replica sees an arbitrary earlier version in the interleaved protocol. In the sequential methods it
  sees the current database, except that the bot takes the answer of its existence query as a parameter.
- SHA-512 is a parameter. `CollisionFree` is a hypothesis of the one theorem that needs it.
- Every request runs on behalf of an authenticated user id.
- A query result comes in an arbitrary row order (`Prelude.Scan`), and a cascade takes its rows in an arbitrary order.

What the code does differently from its documentation or from what its names suggest. The model follows the code:

- `GroupManager::ConfirmCreation` deletes from the table of template drafts (src/groups/groups.cpp:177-181). The group
  draft therefore survives; `Drafts.ManyGroupsFromOneDraft` and `Drafts.ConfirmGroupLeavesTheDrafts` say what that means.
- The update of `SendBatch` does not test `NOT sent` again (src/notifications/notifications.cpp:148-152), and its check
  goes to a replica. `OverlappingCalls.OverlappingCallsBothSend` continues any run with a pending batch by two overlapping
  calls that notify every target twice; `UndisturbedCall.LateStaleCallSends` does so for a call that starts long after
  the first has finished, but checks the version that the first one checked. `BatchEntry.ChecksPassExactly` says which
  checks pass: those on a version after the creation of the batch and up to its first update, as long as its user is
  not deleted.
- `GetRecipients` converts a recipient id that is NULL for an empty group (src/groups/groups.cpp:87-111):
  `GroupManagement.GroupManager.GetRecipients` fails exactly for a group without members, and
  `Drafts.ConfirmedGroupIsEmpty` names such a group.
- `/send_notifications` trusts an existence query that may be stale (src/notifications/telegram/telegram_bot.cpp:45-67).
  `StaleCommands.CommandIsLostExactly` says, for every run, when the command is lost, and
  `StaleCommands.StaleReadLosesACommandInARun` gives a run that loses one.
- A foreign key violation in `GroupManager::Create` without a template id ends in `std::bad_optional_access`
  (src/groups/groups.cpp:43-45), modelled as `BadOptionalAccess`; `Drafts.EmptyOptionalExactly` says when.
- What a tenant sends is not isolated from other tenants. A group may use a template of another user, since only the
  foreign key is checked (`SharedTemplates.AnyTemplateCanBeUsed`), and then that user changes what the group sends
  (`SharingRuns.AnotherUserChangesMyBatch` from every run that has the rows,
  `SharingRuns.AnotherUserChangesMyBatchInARun` from the empty store). `SharedTemplates.OthersChangeTargetsExactly` gives
  the exact condition, and `SharedTemplates.OwnTemplatesAreIsolated` says that a user who keeps to own templates is safe
  from it. The rows of a tenant are isolated in any case, but for the template column of a template that is deleted.
- The loop of `SendBatch` works on rows that it has read before (src/notifications/notifications.cpp:175-199), so the
  consent behind a message is that of the version which the call has read. `LateMessages.SentWithoutConsentExactly` says
  when a message goes to a chat that is not subscribed any more, and `LateMessages.MessageToAStoppedChatInARun` gives a
  run from the empty store in which one can be sent. A row that is deleted in between ends the call with an exception:
  `ProtocolTheorems.InsertionEndsItsCallExactly`.
- `completion_timestamp` is never set, so every notification is pending.
- No JSON value is accepted for the response schemas, for notifications and for token pairs (`Codec`).

## Model

| member | source | states |
|---|---|---|
| `Cascade.DoomedIsLeastClosed` | postgresql/schemas/db_1.sql:20-131 | the rows that go with a deletion are the least set closed under the cascading keys |
| `Cascade.EraseTwice` | postgresql/schemas/db_1.sql:20-131 | deleting two sets of rows one after the other is deleting their union: order does not matter, nor for SET NULL |
| `Cascade.EraseRows` | postgresql/schemas/db_1.sql:20-131 | after a deletion exactly the other rows remain, with their cascading keys unchanged |
| `Cascade.RunCascade` | postgresql/schemas/db_1.sql:20-131 | the row-by-row work list terminates and, for every processing order, ends in the one-shot result |
| `Deletions.DeletingATemplate` | src/templates/templates.cpp:159-176 | the cascade of a template removes that template and sets template_id to NULL on the groups and group drafts that used it, and nothing else |
| `Deletions.DeletingARecipient` | src/recipients/recipients.cpp:173-190 | the cascade of a recipient removes it with its memberships and notifications, and nothing else |
| `Deletions.DeletingAGroup` | src/groups/groups.cpp:299-316 | the cascade of a group removes it with its memberships and notifications, and nothing else |
| `Deletions.DeletingAUser` | src/user/user.cpp:109-123 | in a coherent database the cascade of a user removes exactly that tenant and the links that touch it, detaches surviving groups from its templates, and makes no batch_id NULL |
| `Deletions.KeepOthersNotifications` | postgresql/schemas/db_1.sql:119-131 | a notification that survives the deletion of a user keeps its batch, although the key is ON DELETE SET NULL |
| `RequestEffects.CreatedUser` | src/user/user.cpp:29-51 | Create answers the token of the new id and stores name, salt and sha(password + salt) in that row alone, unless the name is in use or the id is; it says which |
| `RequestEffects.ModifiedUser` | src/user/user.cpp:82-100 | ModifyUser replaces name, salt and sha(password + salt) of that row alone; it fails exactly for a missing user and for a name of another user |
| `RequestEffects.DeletedUser` | src/user/user.cpp:109-123 | in a coherent database DeleteUser leaves what one tenant less leaves, or finds no user |
| `RequestEffects.CreatedTemplate` | src/templates/templates.cpp:20-41 | Create stores one draft row with name, text and owner as given, and answers it |
| `RequestEffects.ModifiedTemplate` | src/templates/templates.cpp:129-157 | ModifyTemplate writes name and text of that row alone and answers it; it fails exactly when the caller has no such template |
| `RequestEffects.DeletedTemplate` | src/templates/templates.cpp:159-176 | DeleteTemplate removes the template and the references to it exactly for its owner |
| `RequestEffects.CreatedRecipient` | src/recipients/recipients.cpp:20-45 | Create stores one draft row with name, email, phone number, telegram id and owner, each in its column, and answers it |
| `RequestEffects.ModifiedRecipient` | src/recipients/recipients.cpp:139-171 | ModifyRecipient writes each of these columns of that row alone and answers it; it fails exactly when the caller has no such recipient |
| `RequestEffects.DeletedRecipient` | src/recipients/recipients.cpp:173-190 | DeleteRecipient removes the recipient with its memberships and notifications exactly for its owner |
| `RequestEffects.CreatedGroup` | src/groups/groups.cpp:21-52 | Create stores one draft row with name, active, owner and template; each of its failures has its exact condition |
| `RequestEffects.ModifiedGroup` | src/groups/groups.cpp:208-248 | ModifyGroup writes name, active and template of that row alone; each of its failures has its exact condition |
| `RequestEffects.DeletedGroup` | src/groups/groups.cpp:299-316 | DeleteGroup removes the group with its memberships and notifications exactly for its owner |
| `RequestEffects.AddedRecipient` | src/groups/groups.cpp:250-297 | AddRecipient adds exactly one membership, or says which of the two rows is missing or that they are linked already |
| `RequestEffects.RemovedRecipient` | src/groups/groups.cpp:318-364 | DeleteRecipient of a group removes exactly one membership, or says which row is missing or that they are not linked |
| `RequestEffects.CreatedBatch` | src/notifications/notifications.cpp:18-32 | CreateBatch stores one row of the caller, not sent |
| `RequestEffects.CreatedNotification` | src/notifications/notifications.cpp:116-138 | CreateNotification stores one row with type, time, batch, recipient and group as given, exactly when the id is new and the three keys exist |
| `RequestEffects.CancelledNotification` | src/notifications/notifications.cpp:203-222 | CancelNotification removes exactly that row, if and only if it is pending and its batch is one of the caller; otherwise it finds none and changes nothing |
| `RequestEffects.CancelledIsGone` | src/notifications/notifications.cpp:203-222 | a cancelled notification is listed for nobody and cannot be cancelled again |
| `SchemaIntegrity.EraseKeepsForeignKeys` | postgresql/schemas/db_1.sql:20-131 | deleting a closed set of rows leaves no dangling key |
| `SchemaIntegrity.ApplyKeepsForeignKeys` | postgresql/schemas/db_1.sql:20-131 | every transaction keeps every foreign key, whatever it asks for |
| `SchemaIntegrity.ApplyKeepsUniqueNames` | postgresql/schemas/db_1.sql:10-16 | every transaction keeps user names unique |
| `SchemaIntegrity.EveryStateHasIntegrity` | postgresql/schemas/db_1.sql:10-139 | all keys hold after every history of transactions from the empty store |
| `Footprints.FailuresChangeNothing` | src/groups/groups.cpp:250-364 | all or nothing: a transaction that fails leaves the database as it was |
| `Footprints.UserFootprint` | src/user/user.cpp:29-100 | Create and ModifyUser change the user table and nothing else |
| `Footprints.TemplateFootprint` | src/templates/templates.cpp:20-176 | the tables that template requests can change |
| `Footprints.TemplateEditsLeaveGroups` | src/templates/templates.cpp:20-157 | only the deletion of a template touches a group, and only it removes a template |
| `Footprints.RecipientFootprint` | src/recipients/recipients.cpp:20-190 | the tables that recipient requests can change |
| `Footprints.GroupFootprint` | src/groups/groups.cpp:21-364 | the tables that group requests can change |
| `Footprints.NotificationFootprint` | src/notifications/notifications.cpp:18-222 | the tables that notification requests can change |
| `Footprints.SubscribeFootprint` | src/notifications/telegram/telegram_bot.cpp:45-69 | /send_notifications makes the contact active, or answers that nothing changed and changes nothing |
| `Footprints.UnsubscribeFootprint` | src/notifications/telegram/telegram_bot.cpp:73-92 | /stop_notifications makes an active contact inactive, or changes nothing |
| `Footprints.OnlyCommandsTouchContacts` | src/notifications/telegram/telegram_bot.cpp:28-94 | no manager request changes a contact |
| `Footprints.OnlyUserRequestsTouchUsers` | src/user/user.cpp:29-123 | no other request changes an account |
| `Footprints.OthersOnlyDropBatches` | src/notifications/notifications.cpp:18-32 | outside the notification manager batches only disappear |
| `Coherence.ApplyKeepsCoherence` | src/groups/groups.cpp:250-297 | every transaction keeps memberships and notifications within one tenant and every notification with its sent batch, an inserted notification only if it is justified |
| `Coherence.AddedMember` | src/groups/groups.cpp:250-297 | AddRecipient links only a recipient and a group of the caller |
| `Coherence.BatchTableGrows` | src/notifications/notifications.cpp:148-152 | notification requests keep every batch with its owner, and never set sent back to false |
| `Coherence.EachNotificationHasOneReader` | src/notifications/notifications.cpp:61-113 | the inner join with the batches lists every notification for exactly one user, the owner of its group and of its recipient; pending and all agree |
| `History.RegistryGrows` | src/groups/groups.cpp:28 | in a fresh history an id keeps its table and its owner for ever |
| `Identity.ApplyStaysRegistered` | postgresql/schemas/db_1.sql:10-131 | every transaction stores ids only in the table and under the owner they were drawn for |
| `Identity.EveryVersionIsRegistered` | postgresql/schemas/db_1.sql:10-131 | so does every version of every fresh history |
| `Identity.OneRowForEachId` | postgresql/schemas/db_1.sql:10-131 | two versions that store one id store it in the same table for the same tenant |
| `Identity.NeverReturns` | postgresql/schemas/db_1.sql:10-131 | a row that is not stored although its id was drawn never comes back |
| `Identity.DeletedNeverReturns` | postgresql/schemas/db_1.sql:10-131 | a deleted row never comes back |
| `Removals.DeletedGroupIsGone` | src/groups/groups.cpp:299-316 | after a committed DeleteGroup no later version stores the group, a membership in it or a notification for it |
| `Removals.DeletedRecipientIsGone` | src/recipients/recipients.cpp:173-190 | after a committed DeleteRecipient no later version stores the recipient, a membership or a notification of it |
| `Removals.DeletedTemplateIsGone` | src/templates/templates.cpp:159-176 | after a committed DeleteTemplate no later version stores the template, and no group or group draft uses it |
| `Removals.DeletedUserIsGone` | src/user/user.cpp:109-123 | after a committed DeleteUser no later version stores the account or any row of that owner |
| `Removals.CancelledNotificationNeverReturns` | src/notifications/notifications.cpp:203-222 | a cancelled notification is in no later version, and no later request finds it |
| `LastWrites.RecipientIsLastWritten` | src/recipients/recipients.cpp:97-171 | in every version of every history, each column of a stored recipient is that of its last committed write: the last modification, or the Create of the draft that was confirmed to it |
| `LastWrites.TemplateIsLastWritten` | src/templates/templates.cpp:89-157 | the same for every stored template |
| `LastWrites.GroupDraftHasACreation` | src/groups/groups.cpp:21-52 | every stored group draft carries the data of a committed Create, with its template as long as that is stored |
| `LastWrites.GroupIsLastWritten` | src/groups/groups.cpp:166-248 | each column of a stored group is that of its last committed write, and its template the one named there if it is still stored, and none otherwise |
| `Tenancy.OtherTenantsAreUntouched` | src/groups/groups.cpp:299-364 | a transaction that runs as one user leaves templates, recipients, groups, drafts, memberships, batches, notifications and credentials of every other user unchanged, except that a group or group draft loses a template of the acting user that is deleted |
| `Tenancy.OnlyDeletedTemplatesCrossTenants` | postgresql/schemas/db_1.sql:75-90 | the template of a group or group draft of another user changes exactly when it was a template of the acting user that is now deleted, and then to NULL |
| `Isolation.CommittedIsJustified` | src/notifications/notifications.cpp:116-138 | in every history with coherent versions each notification was inserted within one tenant for a sent batch |
| `Isolation.TenantsAreIsolated` | src/groups/groups.cpp:299-364 | in every interleaved run, while only others act, the rows of a user do not change, except that each group and group draft keeps its template exactly if that is still stored and otherwise has none |
| `SharedTemplates.TextAfter` | src/templates/templates.cpp:129-176 | which transactions change the text that a template id stands for, exactly |
| `SharedTemplates.AnyTemplateCanBeUsed` | src/groups/groups.cpp:21-52 | any user can make a group with a template of any other; its deliveries then carry the text of that template |
| `SharedTemplates.OthersChangeTargetsExactly` | src/notifications/notifications.cpp:153-161 | a request of another user changes what the batches of v send if and only if it changes or deletes the text of a template of that user which an active group of v with a subscribed member uses |
| `SharedTemplates.OthersChangeTargetsInARun` | src/notifications/notifications.cpp:153-161 | the same for every step of every run |
| `SharedTemplates.OwnTemplatesAreIsolated` | src/notifications/notifications.cpp:153-161 | no request of another user changes what v sends if every group of v uses only templates of v |
| `SharedTemplates.OwnTemplatesAreIsolatedInARun` | src/notifications/notifications.cpp:153-161 | the same over every stretch of every run in which only others act and no chat subscribes or stops |
| `SharingRuns.SharingRunsOn` | src/groups/groups.cpp:21-52 | every run with a stored template and a subscribed recipient of v can be continued by three requests of v after which v delivers the text of that template, whoever owns it |
| `SharingRuns.AnotherUserChangesMyBatch` | src/templates/templates.cpp:129-157 | every such run can be continued by these requests and one of the owner of the template, and this last one changes what the batches of v send |
| `SharingRuns.AnotherUserChangesMyBatchInARun` | src/templates/templates.cpp:129-157 | such a run exists from the empty store, whatever the hash function |
| `Drafts.RecipientDraftHasACreation` | src/recipients/recipients.cpp:20-45 | every stored recipient draft carries, column by column, the data of a committed Create of its owner |
| `Drafts.ConfirmRecipientMovesTheDraft` | src/recipients/recipients.cpp:97-137 | a confirmation moves one row from the drafts to the recipients; drafts plus recipients stay as many |
| `Drafts.ConfirmedRecipientIsTheDraft` | src/recipients/recipients.cpp:97-137 | name, email, phone number and telegram id of a confirmed recipient are those given at Create, and so is the answer |
| `Drafts.RecipientDraftConfirmsOnce` | src/recipients/recipients.cpp:97-137 | a recipient draft is confirmed at most once; later attempts fail and change nothing |
| `Drafts.TemplateDraftHasACreation` | src/templates/templates.cpp:20-41 | every stored template draft is exactly what a committed Create of its owner has put there |
| `Drafts.ConfirmTemplateMovesTheDraft` | src/templates/templates.cpp:89-127 | a confirmation moves one row from the drafts to the templates; drafts plus templates stay as many |
| `Drafts.ConfirmedTemplateIsTheDraft` | src/templates/templates.cpp:89-127 | a confirmed template carries exactly the fields given at Create |
| `Drafts.TemplateDraftConfirmsOnce` | src/templates/templates.cpp:89-127 | a template draft is confirmed at most once; later attempts fail and change nothing |
| `Drafts.GroupDraftStays` | src/groups/groups.cpp:166-206 | only the deletion of its user removes a group draft; otherwise it only loses a template that is deleted |
| `Drafts.GroupDraftSurvives` | src/groups/groups.cpp:21-52 | a committed group draft is stored, as given, in every later version in which its user was not deleted |
| `Drafts.ConfirmGroupNeedsOnlyItsDraft` | src/groups/groups.cpp:166-206 | a group confirmation fails exactly when the user has no such draft; it never meets a key violation, so it needs no catch |
| `Drafts.ConfirmGroupLeavesTheDrafts` | src/groups/groups.cpp:177-181 | a group confirmation deletes no draft of any kind |
| `Drafts.GroupDraftAlwaysConfirms` | src/groups/groups.cpp:166-206 | whatever happened since Create, the confirmed group has the given template if it is still stored, and otherwise none |
| `Drafts.ManyGroupsFromOneDraft` | src/groups/groups.cpp:166-206 | confirming one group draft n times stores n distinct groups, each with the row of the draft |
| `Drafts.ConfirmedGroupIsEmpty` | src/groups/groups.cpp:87-96 | a group that has just been confirmed has no members: the input on which GetRecipients meets NULL |
| `Drafts.EmptyOptionalExactly` | src/groups/groups.cpp:43-45 | Create ends in the empty optional if and only if no template id is given, the draft id is new and the user is not stored |
| `CredentialHistory.AcceptedRequest` | src/user/user.cpp:29-123 | a committed account request writes one row, with the salted hash of the new password, or deletes one |
| `CredentialHistory.UsersStoreAccounts` | src/user/auth.cpp:35-49 | the user table stores the name and the salted hash of the password that each user set last |
| `CredentialHistory.LoginFollowsHistory` | src/user/user.cpp:55-79 | with a collision-free hash, a login gives u exactly when u holds that name and last set that password, and UserNotFound exactly when nobody holds the name |
| `CredentialHistory.OwnCredentialsLogIn` | src/user/user.cpp:55-79 | whatever the hash, the credentials last set log in |
| `Subscriptions.ContactIsLastApplied` | src/notifications/telegram/telegram_bot.cpp:28-94 | a contact is the fold of its applied commands: absent, active or inactive |
| `Subscriptions.ContactIsLastIssued` | src/notifications/telegram/telegram_bot.cpp:28-94 | with current reads the issued commands alone decide, and a chat that never subscribed has no contact |
| `Subscriptions.SubscribingTakesEffect` | src/notifications/telegram/telegram_bot.cpp:45-69 | /send_notifications subscribes the chat if and only if it was subscribed or the existence query was right |
| `StaleCommands.ContactsStay` | src/notifications/telegram/telegram_bot.cpp:28-94 | no transaction removes a contact |
| `StaleCommands.CommandIsLostExactly` | src/notifications/telegram/telegram_bot.cpp:45-69 | in every run, /send_notifications leaves its chat unsubscribed if and only if the contact is stored and inactive and the version that the query saw did not have it |
| `StaleCommands.StaleReadLosesACommandInARun` | src/notifications/telegram/telegram_bot.cpp:45-56 | a run, for every chat, in which the last command is /send_notifications and the chat is not subscribed |
| `LateMessages.InactiveExactly` | src/notifications/telegram/telegram_bot.cpp:28-94 | a chat that was subscribed is not subscribed in a later version if and only if a stop was applied in between and no subscription after it |
| `LateMessages.SentWithoutConsentExactly` | src/notifications/notifications.cpp:175-199 | in every run, a message that can be sent goes to a chat that is not subscribed at that moment if and only if a stop was applied after the version that the call has read, and no subscription after it |
| `LateMessages.StopComesTooLate` | src/notifications/notifications.cpp:175-199 | wherever a call is in its loop: if the chat of the next row stops now, its message can still be sent |
| `LateMessages.MessageToAStoppedChat` | src/notifications/notifications.cpp:175-199 | every run with a pending batch that reaches anyone can be continued by a call whose first message goes to a chat that has stopped |
| `LateMessages.MessageToAStoppedChatInARun` | src/notifications/notifications.cpp:175-199 | such a run exists from the empty store, whatever the hash function |
| `Outreach.WantedRowsHaveAChat` | src/notifications/notifications.cpp:182-194 | the conversion of telegram_id to a non-optional never meets NULL where the loop makes it |
| `Outreach.TargetIsPromised` | src/notifications/notifications.cpp:153-199 | a target is exactly a membership of an active group of the user whose template has this text, with a recipient who has this chat, subscribed |
| `Outreach.QueryRefinesTargets` | src/notifications/notifications.cpp:153-199 | for every row order, the five-table query with the filter of the loop gives exactly the targets, each once |
| `Outreach.TargetsIgnoreBatches` | src/notifications/notifications.cpp:153-161 | neither marking a batch nor inserting notifications changes whom a batch reaches |
| `ProtocolSafety.MarkedIsSent` | src/notifications/notifications.cpp:170-174 | after the update of a call its batch is marked sent in every version that stores it |
| `ProtocolSafety.TargetKeepsMaster` | src/notifications/notifications.cpp:175-199 | the groups and recipients of a stale query result still belong to the caller wherever they are still stored |
| `ProtocolSafety.CreationIsJustified` | src/notifications/notifications.cpp:116-138 | an insertion from a stale row stays within one tenant, for a batch that is marked sent |
| `ProtocolSafety.ActionKeepsInv` | src/notifications/notifications.cpp:140-201 | every action of the protocol keeps the invariant |
| `ProtocolSafety.EveryRunKeepsInv` | src/notifications/notifications.cpp:140-201 | every reachable state satisfies the invariant |
| `ProtocolTheorems.EveryVersionIsCoherent` | postgresql/schemas/db_1.sql:94-131 | in every version of every run all constraints hold, no link crosses tenants, and no notification has lost its sent batch |
| `ProtocolTheorems.EveryNotificationHasItsReader` | src/notifications/notifications.cpp:61-66 | in every version of every run a notification has a sent batch of the same owner as its recipient and group, and is listed for that user alone |
| `ProtocolTheorems.DeletingAUserRemovesOneTenant` | src/user/user.cpp:109-123 | in every version of every run DeleteUser removes one tenant and nothing more |
| `ProtocolTheorems.EveryMessageHasConsent` | src/notifications/notifications.cpp:175-199 | in every run each message goes to a chat whose latest applied command before the snapshot of its call was /send_notifications |
| `ProtocolTheorems.EveryMessageIsPromised` | src/notifications/notifications.cpp:182-199 | in every run each message goes through a membership of its caller: to the telegram id of the recipient, with the text of the template of an active group, as in the version that was read |
| `ProtocolTheorems.MessagesFollowNotifications` | src/notifications/notifications.cpp:182-200 | wherever a call stops, its n-th message goes to the chat of the n-th target of its snapshot with the text of the template; the messages follow its committed notifications in order, at most one fewer, with distinct ids |
| `ProtocolTheorems.InsertionEndsItsCallExactly` | src/notifications/notifications.cpp:195-198 | in every run, an insertion of the loop ends its call if and only if the batch, the recipient or the group is not stored any more |
| `ProtocolTheorems.NoMessageBeforeTheQuery` | src/notifications/notifications.cpp:162-178 | a call that has not read its rows has sent nothing |
| `ProtocolTheorems.SentNeverGoesBack` | src/notifications/notifications.cpp:170-174 | once marked sent, a batch is marked sent in every later version that stores it |
| `ProtocolTheorems.DoubleEntryMeansOverlap` | src/notifications/notifications.cpp:162-174 | two calls can both pass the check of one batch only if each checked a version not newer than the update of the other (for the exact condition see `BatchEntry.ChecksPassExactly`) |
| `BatchEntry.PendingExactly` | src/notifications/notifications.cpp:142-152 | a pending batch is pending in a later version if and only if, in between, no update has marked it and its user was not deleted |
| `BatchEntry.PendingSinceCreation` | src/notifications/notifications.cpp:18-32 | a batch that a step has created is pending in a version if and only if that version is later than the creation and, in between, no update has marked it and its user was not deleted |
| `BatchEntry.BatchHasACreation` | src/notifications/notifications.cpp:18-32 | every pending batch stems from a committed CreateBatch of its user |
| `BatchEntry.ChecksPassExactly` | src/notifications/notifications.cpp:162-174 | in every run, once a call has marked a batch first, a check on any version passes if and only if that version is later than the creation of the batch, not later than that update, and the user was not deleted in between |
| `DoubleEntry.OverlappingCallsBothEnter` | src/notifications/notifications.cpp:148-152 | in every reachable state with a pending batch, two overlapping calls both enter the loop with every target |
| `OverlappingCalls.OverlappingCallsBothSend` | src/notifications/notifications.cpp:148-200 | every run with a pending batch can be continued by two overlapping calls that both complete: two messages and two notifications for each target, and no other change but the mark |
| `UndisturbedCall.CallCompletes` | src/notifications/notifications.cpp:140-201 | a call whose check passes on any version, for a batch that is still stored, can complete: the batch is marked, each target has its notification and its message, and no other call has moved |
| `UndisturbedCall.LateStaleCallSends` | src/notifications/notifications.cpp:162-174 | however long ago a call finished, a later call that checks the same version can deliver to every target again |
| `UndisturbedCall.UndisturbedCallCompletes` | src/notifications/notifications.cpp:140-201 | every run with a pending batch can be continued by an undisturbed call on current data, which ends as the sequential SendBatch promises |
| `Storage.Transaction.Execute` | src/groups/groups.cpp:31-45 | a statement changes the working copy, or violates a constraint and aborts the transaction, in which no later statement runs |
| `Storage.Transaction.Commit` | src/groups/groups.cpp:38 | the working copy becomes the committed database, unless the transaction is aborted |
| `Storage.Transaction.Rollback` | src/groups/groups.cpp:270-277 | the working copy is dropped |
| `UserManagement.UserManager.Create` | src/user/user.cpp:29-51 | inserts the account unless the name is taken |
| `UserManagement.UserManager.Login` | src/user/user.cpp:55-79 | answers what the specification of a login says |
| `UserManagement.UserManager.ModifyUser` | src/user/user.cpp:82-100 | replaces name, hash and salt, unless another user has the name |
| `UserManagement.UserManager.DeleteUser` | src/user/user.cpp:109-123 | runs the cascade of the user in one transaction |
| `TemplateManagement.TemplateManager.Create` | src/templates/templates.cpp:20-41 | stores a draft |
| `TemplateManagement.TemplateManager.ConfirmCreation` | src/templates/templates.cpp:89-127 | moves a draft of the caller, or finds none |
| `TemplateManagement.TemplateManager.ModifyTemplate` | src/templates/templates.cpp:129-157 | replaces name and text of a template of the caller |
| `TemplateManagement.TemplateManager.DeleteTemplate` | src/templates/templates.cpp:159-176 | runs the cascade of a template of the caller in one transaction |
| `RecipientManagement.RecipientManager.Create` | src/recipients/recipients.cpp:20-45 | stores a draft with each field in its column |
| `RecipientManagement.RecipientManager.ConfirmCreation` | src/recipients/recipients.cpp:97-137 | moves a draft of the caller, or finds none |
| `RecipientManagement.RecipientManager.ModifyRecipient` | src/recipients/recipients.cpp:139-171 | replaces each column of a recipient of the caller |
| `RecipientManagement.RecipientManager.DeleteRecipient` | src/recipients/recipients.cpp:173-190 | runs the cascade of a recipient of the caller in one transaction |
| `GroupManagement.GroupManager.Create` | src/groups/groups.cpp:21-52 | stores a draft, or names the template id it cannot use |
| `GroupManagement.GroupManager.GetRecipients` | src/groups/groups.cpp:79-120 | answers each member of a group with members exactly once, fails on the NULL row exactly for a group without, and on a missing group |
| `GroupManagement.LeftJoinRows` | src/groups/groups.cpp:87-96 | the left joins give one row for each member, or a single row of NULLs |
| `GroupManagement.MembersCarryTheirMaster` | src/groups/groups.cpp:110-117 | the master filled in from the caller is the stored one |
| `GroupManagement.GroupManager.ConfirmCreation` | src/groups/groups.cpp:166-206 | stores the group of a draft of the caller and deletes among the template drafts |
| `GroupManagement.GroupManager.ModifyGroup` | src/groups/groups.cpp:208-248 | replaces the fields of a group of the caller, with a template that exists |
| `GroupManagement.GroupManager.AddRecipient` | src/groups/groups.cpp:250-297 | adds a membership of two rows of the caller, once |
| `GroupManagement.GroupManager.DeleteGroup` | src/groups/groups.cpp:299-316 | removes a group of the caller with its memberships and notifications in one transaction |
| `GroupManagement.GroupManager.DeleteRecipient` | src/groups/groups.cpp:318-364 | removes a membership of two rows of the caller |
| `NotificationManagement.NotificationsManager.CreateBatch` | src/notifications/notifications.cpp:18-32 | stores a batch that is not sent |
| `NotificationManagement.NotificationsManager.CreateNotification` | src/notifications/notifications.cpp:116-138 | stores one notification of the given type, if its keys exist |
| `NotificationManagement.NotificationsManager.CancelNotification` | src/notifications/notifications.cpp:203-222 | removes a pending notification of a batch of the caller, and answers that it found none exactly otherwise |
| `NotificationManagement.NotificationsManager.QueryTargets` | src/notifications/notifications.cpp:153-178 | the query of SendBatch delivers, through the filter, exactly the targets |
| `NotificationManagement.NextStep` | src/notifications/notifications.cpp:182-199 | one round of the loop adds its notification and its message, or the call stops at a colliding id or at an undelivered message |
| `NotificationManagement.NotificationsManager.Deliver` | src/notifications/notifications.cpp:197-198 | one notification is stored, with its columns, and then the text of the template is sent to the chat |
| `NotificationManagement.NotificationsManager.DeliverRows` | src/notifications/notifications.cpp:182-200 | the loop: the ids returned are those inserted, in order; the n-th message has the chat and the text of the n-th delivery |
| `NotificationManagement.NotificationsManager.SendBatch` | src/notifications/notifications.cpp:140-201 | the whole call: nothing for a batch that is not pending; otherwise the batch is marked, the n-th notification and the n-th message have the columns, the chat and the text of the n-th promise, success means that every promise is kept, and a failure leaves matching prefixes; the batch cannot be sent again |
| `TelegramBotting.TelegramBot.SendMessage` | src/notifications/telegram/telegram_bot.cpp:15-22 | a message is accepted, or the request fails |
| `TelegramBotting.TelegramBot.HandleHelp` | src/notifications/telegram/telegram_bot.cpp:24-26 | answers the help text |
| `TelegramBotting.TelegramBot.HandleSendNotifications` | src/notifications/telegram/telegram_bot.cpp:28-71 | subscribes the chat and answers whether it was subscribed, or fails on the key of a contact that its existence query has missed |
| `TelegramBotting.TelegramBot.HandleStopNotifications` | src/notifications/telegram/telegram_bot.cpp:73-94 | unsubscribes the chat and answers whether it was subscribed |
| `TelegramBotting.TelegramBot.HandleUpdate` | src/notifications/telegram/telegram_bot.cpp:96-124 | by the text of the update: what "/send_notifications" and "/stop_notifications" do to the contact of the sender, and which answer each sends, for every answer of the existence query; every other text is answered with the help text and changes nothing; the change stays when the answer is lost |
| `JsonValues.MergeFlat` | src/schemas/schemas.cpp:320-337 | merging a flat object is a plain override of members |
| `JsonValues.MergeByLeaves` | src/schemas/schemas.cpp:320-337 | at every depth, the leaves of a merge are those of the patch, and those of the original where the patch leaves room |
| `JsonValues.MergeByMember` | src/schemas/schemas.cpp:320-337 | merging member by member gives the same result for every order |
| `Codec.TemplateAccepted` | src/schemas/schemas_parsers.ipp:14-43 | exactly which JSON values are accepted as a template |
| `Codec.RecipientAccepted` | src/schemas/schemas_parsers.ipp:45-81 | exactly which JSON values are accepted as a recipient |
| `Codec.GroupAccepted` | src/schemas/schemas_parsers.ipp:83-115 | exactly which JSON values are accepted as a group |
| `Codec.UserAccepted` | src/schemas/schemas_parsers.ipp:598-625 | exactly which JSON values are accepted as a user |
| `Codec.TemplateMembers` | src/schemas/schemas_parsers.ipp:14-43 | which member of an accepted template is which field, exactly |
| `Codec.RecipientMembers` | src/schemas/schemas_parsers.ipp:45-81 | which member of an accepted recipient is which field, exactly |
| `Codec.GroupMembers` | src/schemas/schemas_parsers.ipp:83-115 | which member of an accepted group is which field, exactly |
| `Codec.UserMembers` | src/schemas/schemas_parsers.ipp:598-625 | which member of an accepted user is which field, exactly |
| `Codec.SerializedMembers` | src/schemas/schemas.cpp:30-133 | serialized objects say the same in the same members, without nulls |
| `Codec.TemplateRoundTrip` | src/schemas/schemas.cpp:30-45 | Parse(Serialize(x)) = x |
| `Codec.RecipientRoundTrip` | src/schemas/schemas.cpp:67-93 | Parse(Serialize(x)) = x |
| `Codec.GroupRoundTrip` | src/schemas/schemas.cpp:115-133 | Parse(Serialize(x)) = x |
| `Codec.UserRoundTrip` | src/schemas/schemas.cpp:1149-1161 | Parse(Serialize(x)) = x |
| `Codec.RecipientIsStrict` | src/schemas/schemas_parsers.ipp:45-81 | whatever is accepted is flat and of named members, and serializing it adds no member |
| `Codec.BuildWithoutId` | src/schemas/schemas.cpp:1115-1133 | the builder with its merges computes the serialization of a payload |
| `Codec.BuildReturned` | src/schemas/schemas.cpp:320-337 | the builder with its merges computes the serialization with the master |
| `Codec.BuildIdentified` | src/schemas/schemas.cpp:393-410 | the builder with its merges computes the serialization with the id |
| `Codec.PayloadRoundTrip` | src/schemas/schemas_parsers.ipp:571-600 | Serialize(Parse(j)) = j for every accepted payload of a template, recipient or group, explicit nulls included |
| `Codec.PayloadAccepted` | src/schemas/schemas_parsers.ipp:571-600 | a payload is accepted exactly when its base object is |
| `Codec.ResponseShape` | src/schemas/schemas.cpp:393-410 | a response has the members of its base, the master and the id, and no other |
| `Codec.NothingIsReturned` | src/schemas/schemas_parsers.ipp:212-244 | a base that forbids master_id and a layer that requires it accept no JSON value together |
| `Codec.NoResponseParses` | src/schemas/schemas_parsers.ipp:212-300 | this holds for templates, recipients and groups, drafts and stored ones |
| `Codec.KindMember` | src/schemas/schemas.hpp:130-137 | which text of the type member is which message type, exactly |
| `Codec.NoNotificationParses` | src/schemas/schemas_parsers.ipp:117-180 | no JSON value is accepted as a notification |
| `Codec.NoSerializedBatchParses` | src/schemas/schemas.cpp:253-264 | a serialized batch is never accepted, for want of the batch id alone |
| `Codec.NoTokenPairParses` | src/schemas/schemas_parsers.ipp:627-646 | no JSON value is accepted as a token pair |

## Left out

- HTTP handlers, status codes, component registration and static configuration: plumbing around the managers.
- JWT creation, verification and refresh, expiry and secret loading: done by a library that is not part of this model. A user id is a parameter.
- The computation of SHA-512, of random salts and of UUIDs, and their text form: parameters here. An id is an unbounded natural number.
- Network calls to Telegram: a message is appended to a log, or the request fails. The fixed texts of the bot are named, not spelled out.
- PostgreSQL inside one transaction: locks, isolation anomalies, timeouts, lost connections and the VARCHAR lengths of the columns.
- The row-to-struct conversion of the notification listings and of `GroupManager::GetById`, which reads other rows or columns than the query gives: the queries are modelled, not the conversion.
- The getters of a single table, logging, exception messages and the enum map in the other direction: easy members.
- JSON numbers other than integers: a telegram_id is an integer of 64 bits here.
- Which of several errors a layered JSON parser reports first: the order of evaluation is open in the program, and only acceptance is claimed.
- Update in place inside a table: the database is one immutable value, and every change goes through a working copy.
- The exact division into methods: the loop of the send call and the bot handlers are divided into a few methods more than in the program.
- Liveness: no claim that a call of SendBatch reaches its end when others disturb it.
