# Nimbo core, modelled in Dafny

Nimbo is a Next.js and Supabase application for virtual workspaces. Users own or join workspaces, work in rooms, show their presence and chat. This project models the parts of Nimbo that hold decisions and state changes:

- **Realtime hooks.** Presence maps and participant lists update on channel and row events. A channel supervisor reconnects with a bounded retry budget. A generic subscription hook registers listeners and dispatches events.
- **Client stores.** The room store and the workspace store hold entity lists that their actions replace.
- **Validation and error shaping.** The `validateData` rule engine, and the mapping of database errors to an HTTP status and an error code.
- **Server routes.** Invitation checks, user pagination and search, workspace listing and creation, profile and status patches.
- **Middleware and page logic.** The middleware's redirect decision, role tagging on the workspaces page, and the `isAdmin` test of the member dialog.

How the model represents things:

- **Layout.** One Dafny module per source file, plus shared helper modules:
  - `Js`: JSON values and truthiness.
  - `Strings`: `trim`, `parseInt`, `includes`, `^https?://.+`.
  - `Seqs`: the `filter((w, i, self) => i === self.findIndex(...))` dedupe, and `filter`.
  - `Records`: object spread, update by id, remove by id.
  - `Wrappers`: `Option` and `Result`.
- **The backend.** Tables are sequences or maps. Each query result, and each failure, is a parameter of the operation that uses it.
- **Stateful code.** A hook or store whose callbacks update its state is a Dafny `class`.
  - Each method's `ensures` ties the new state to a pure function of the old state.
  - The properties are then proved about those functions.
- **Server routes.** Each route is a function from the request, and the backend's answers, to the response. Where a route writes, the function also returns the new tables.
- **Clock and engine.** The clock (`now`), the ISO formatter and the date parser are parameters. So is the text of the engine's `TypeError` when code reads a property of `null`.

## Model

| member | source | states |
|---|---|---|
| ApiUtils.ErrorCodes | src/lib/api-utils.ts:45-56 | the ten error codes are pairwise distinct and differ from the default `ERR_UNKNOWN` |
| ApiUtils.Json | src/lib/api-utils.ts:14-41 | a response document always has `success`, true exactly for a success body |
| ApiUtils.ApiSuccess | src/lib/api-utils.ts:14-21 | a success body carrying the data, with the given status |
| ApiUtils.ApiError | src/lib/api-utils.ts:25-42 | a failure with the given code, message and status; `details` is present exactly when truthy details were given |
| ApiUtils.ErrorJsonDetails | src/lib/api-utils.ts:31-41 | the JSON error object has a `details` key iff the details are truthy, and it carries the code and message |
| ApiUtils.Defaults | src/lib/api-utils.ts:14-30 | `apiSuccess` defaults to 200; `apiError` defaults to 400, `ERR_UNKNOWN` and no details |
| ApiUtils.HandleDbError | src/lib/api-utils.ts:62-91 | codes 23505, 42501 and 23503 give 409 DUPLICATE, 403 FORBIDDEN and 400 FOREIGN_KEY, checked in that order; a "not found" message gives 404 only when no code matched; anything else gives 500 INTERNAL; `details.originalError` always carries the message |
| ApiUtils.DbErrorStatusAgreesWithCode | src/lib/api-utils.ts:66-91 | a mapped error's status and code always agree, and the code is one of the ten |
| Validation.JsLength | src/lib/validation.ts:40 | a string's JS length is at least its number of characters, and equal to it when every character lies in the Basic Multilingual Plane |
| Validation.FieldErrorNoneIffPasses | src/lib/validation.ts:22-88 | a field gets no message exactly when it passes every check its rule names (checked against an independent reference predicate) |
| Validation.RequiredBlankOnlyRequis | src/lib/validation.ts:26-29 | a required field that is undefined, null or `''` gets only the "requis" message |
| Validation.OptionalBlankPasses | src/lib/validation.ts:32-34 | an optional blank field never fails |
| Validation.LengthOnlyOnStrings | src/lib/validation.ts:37-52 | minimum and maximum lengths never fail on a value that is not a string |
| Validation.EnumRejectsUnlisted | src/lib/validation.ts:69-72 | a present value that is not one of the listed strings always fails, whatever its type |
| Validation.CustomOverridesEarlier | src/lib/validation.ts:83-88 | a failing custom check decides the message, replacing every earlier one |
| Validation.ErrorsOnlyNamedFields | src/lib/validation.ts:22-23 | only fields that some rule names can carry a message |
| Validation.ErrorsPerField | src/lib/validation.ts:22-89 | with one rule per name, a field has a message exactly when its own rule fails, and the message is that field's |
| Validation.ErrorsAtField | src/lib/validation.ts:22-89 | the entry for the field of any one rule is that rule's own message, when no other rule names the field |
| Validation.ExtraFieldsIgnored | src/lib/validation.ts:22-23 | data fields that no rule names do not change the outcome |
| Validation.DateParserIrrelevant | src/lib/validation.ts:75-80 | the date parser matters only for rules that ask for a date |
| Validation.Outcome | src/lib/validation.ts:91 | the result is null exactly when the errors map is empty, and the map otherwise |
| Validation.ValidateData | src/lib/validation.ts:19-92 | the rule loop, with its `continue`s, returns the outcome of the errors map in which a later failing check overwrites an earlier one |
| Validation.ApplyChecks | src/lib/validation.ts:36-88 | the checks on a present value write its failures into `errors[field]` in order, the last one winning |
| Validation.ApplyFormatChecks | src/lib/validation.ts:37-66 | the length, pattern and UUID checks overwrite the field's entry in that order |
| Validation.ApplyValueChecks | src/lib/validation.ts:68-88 | the enum, date and custom checks overwrite the field's entry in that order |
| Validation.ChecksInSequence | src/lib/validation.ts:37-88 | running the seven checks one after another leaves the last failure that `Failures` lists |
| Validation.OverwriteStep | src/lib/validation.ts:42-87 | overwriting with one more message is the same as overwriting with the longer list |
| Validation.ErrorsJson | src/lib/validation.ts:99-101 | the errors as a JSON object with the same keys and messages |
| Validation.RequestCheck | src/lib/validation.ts:95-104 | no response exactly when the errors map is empty; otherwise VALIDATION/400, with the errors in `details` |
| Validation.ValidateRequest | src/lib/validation.ts:95-104 | `validateRequest` answers as `RequestCheck` does |
| Validation.RequestPassesIffAllFieldsPass | src/lib/validation.ts:91-104 | with one rule per name, a request passes iff every named field passes its rule |
| Presence.FromEntry | src/hooks/usePresence.ts:89-98 | the record built from an entry keeps its id; status defaults to 'online' and lastSeen to now |
| Presence.FirstWithId | src/hooks/usePresence.ts:87-89 | the first entry of a list, exactly when the list is non-empty and that entry has an id |
| Presence.SyncMap | src/hooks/usePresence.ts:84-103 | a sync replaces the map: its keys are exactly the ids of the first entries carrying an id, each user is stored under its own id and built from one of the snapshot's entries |
| Presence.SyncMapStep | src/hooks/usePresence.ts:87-103 | the map of a snapshot is the map of its prefix with the last key's first entry set under its id |
| Presence.SyncMapLastWins | src/hooks/usePresence.ts:87-103 | a later key overwrites: the user under an id is built from the last key of the snapshot whose first entry carries that id |
| Presence.JoinMap | src/hooks/usePresence.ts:107-122 | a join inserts or overwrites only the id of `newPresences[0]`, with the defaults; an entry without an id changes nothing |
| Presence.Offline | src/hooks/usePresence.ts:134-145 | marking a user offline keeps the key set; only that id becomes offline and last seen now |
| Presence.LeaveMap | src/hooks/usePresence.ts:125-148 | a leave never adds or deletes a key; it marks `leftPresences[0]`'s id offline, or changes nothing |
| Presence.ChangeMap | src/hooks/usePresence.ts:170-202 | INSERT and UPDATE set `user_id` to online, last seen at `joined_at`; DELETE marks a present `old.user_id` offline; any other event changes nothing |
| Presence.Depart | src/hooks/usePresence.ts:125-202 | a leave or a row deletion keeps every key, and a user it changes is marked offline and last seen now |
| Presence.DepartAll | src/hooks/usePresence.ts:125-202 | any sequence of leaves and row deletions keeps exactly the keys of the map |
| Presence.HandlersKeepKeyedById | src/hooks/usePresence.ts:105-202 | every handler other than sync keeps users stored under their own ids |
| Presence.DeparturesNeverDelete | src/hooks/usePresence.ts:125-148 | however many leaves and row deletions arrive, no entry is added or removed, and every changed status is 'offline' |
| Presence.PresenceHook.constructor | src/hooks/usePresence.ts:31-34 | an empty map and no channel |
| Presence.PresenceHook.ChannelReady | src/hooks/usePresence.ts:167 | the channel is set and nothing else changes |
| Presence.PresenceHook.UpdateStatus | src/hooks/usePresence.ts:37-52 | without a channel or a user nothing is tracked; otherwise the user's id, the status and now are tracked |
| Presence.PresenceHook.Sync | src/hooks/usePresence.ts:79-104 | the `forEach` of `set` calls leaves the map equal to `SyncMap` of the snapshot |
| Presence.PresenceHook.Join | src/hooks/usePresence.ts:105-124 | the map becomes `JoinMap` of the old map |
| Presence.PresenceHook.Leave | src/hooks/usePresence.ts:125-148 | the map becomes `LeaveMap` of the old map |
| Presence.PresenceHook.HandlePresenceChange | src/hooks/usePresence.ts:170-202 | the map becomes `ChangeMap` of the old map |
| RealtimeStatus.Initial | src/hooks/useRealtimeStatus.ts:26-29 | the initial state is CONNECTING with no error, no channel, no timer and no retry |
| RealtimeStatus.IsConnected | src/hooks/useRealtimeStatus.ts:159 | `connected` holds only in CONNECTED, never while the hook reports connecting |
| RealtimeStatus.IsConnecting | src/hooks/useRealtimeStatus.ts:160 | `connecting` holds only in CONNECTING or RECONNECTING, never when connected or disconnected |
| RealtimeStatus.InitiateReconnect | src/hooks/useRealtimeStatus.ts:95-121 | with the budget used up, only the max-retries error is set; otherwise the count grows by one, the status is RECONNECTING and exactly one timer is pending |
| RealtimeStatus.Connect | src/hooks/useRealtimeStatus.ts:33-92 | on success a fresh channel, CONNECTING and no error; a failure keeps the channel and is exactly a reconnection started from DISCONNECTED with the initialisation message as the error |
| RealtimeStatus.OnSystem | src/hooks/useRealtimeStatus.ts:50-68 | the 'connected' event gives CONNECTED, count 0 and no pending timer |
| RealtimeStatus.OnSubscribe | src/hooks/useRealtimeStatus.ts:71-84 | SUBSCRIBED gives CONNECTED and count 0; statuses other than the three handled ones change nothing |
| RealtimeStatus.FailuresDisconnectFirst | src/hooks/useRealtimeStatus.ts:58-68 | CHANNEL_ERROR, TIMED_OUT, 'disconnected' and 'error' each set DISCONNECTED, with their error, before `initiateReconnect` |
| RealtimeStatus.Disconnect | src/hooks/useRealtimeStatus.ts:124-137 | with a channel, clears it and the timer and sets DISCONNECTED; without one, changes nothing |
| RealtimeStatus.ResetStartsFresh | src/hooks/useRealtimeStatus.ts:150-154 | a successful reset ends CONNECTING, count 0, no error, on a channel never used before |
| RealtimeStatus.FireTimer | src/hooks/useRealtimeStatus.ts:108-120 | nothing fires unless a timer is pending; when one fires, `onReconnect` is called exactly when it was given |
| RealtimeStatus.StepWithinBudget | src/hooks/useRealtimeStatus.ts:96-102 | every event, timer, connect, disconnect or reset keeps the count between 0 and `maxRetries` |
| RealtimeStatus.RetriesBounded | src/hooks/useRealtimeStatus.ts:96-102 | after any sequence of steps from a state within budget, the count still does not exceed `maxRetries` |
| RealtimeStatus.InitialWithinBudget | src/hooks/useRealtimeStatus.ts:29 | the initial state is within every budget |
| RealtimeStatus.ExhaustedStaysDown | src/hooks/useRealtimeStatus.ts:96-99 | once the budget is used up, failures keep the count, the timer and the channel, leave DISCONNECTED and report the maximum |
| RealtimeStatus.FailureSchedulesOneRetry | src/hooks/useRealtimeStatus.ts:102-120 | with budget left, a failure counts one retry, sets RECONNECTING and leaves one pending timer |
| RealtimeStatus.RealtimeStatusHook.constructor | src/hooks/useRealtimeStatus.ts:22-29 | the hook starts in the initial state |
| RealtimeStatus.RealtimeStatusHook.InitiateReconnectStep | src/hooks/useRealtimeStatus.ts:95-121 | the refs change as `InitiateReconnect` says |
| RealtimeStatus.RealtimeStatusHook.ConnectStep | src/hooks/useRealtimeStatus.ts:33-92 | the refs change as `Connect` says |
| RealtimeStatus.RealtimeStatusHook.SystemEventStep | src/hooks/useRealtimeStatus.ts:50-68 | the refs change as `OnSystem` says |
| RealtimeStatus.RealtimeStatusHook.SubscribeStep | src/hooks/useRealtimeStatus.ts:71-84 | the refs change as `OnSubscribe` says |
| RealtimeStatus.RealtimeStatusHook.DisconnectStep | src/hooks/useRealtimeStatus.ts:124-137 | the refs change as `Disconnect` says |
| RealtimeStatus.RealtimeStatusHook.ResetStep | src/hooks/useRealtimeStatus.ts:150-154 | disconnect, forget the retries, connect again |
| RealtimeStatus.RealtimeStatusHook.FireTimerStep | src/hooks/useRealtimeStatus.ts:108-120 | the refs change as `FireTimer` says, and `onReconnect` is reported as called exactly when it was |
| Realtime.Dispatch | src/hooks/useRealtime.ts:44-63 | with `onAll`, it is called first on the payload; without it no `onAll` call happens |
| Realtime.DispatchSelectsOne | src/hooks/useRealtime.ts:49-60 | at most one type-specific handler runs, after `onAll`, for the payload's own event type, with the records it needs |
| Realtime.DispatchRunsHandlerIff | src/hooks/useRealtime.ts:54-59 | each type-specific handler runs exactly when it exists, the type matches and its records are present |
| Realtime.KindsToRegister | src/hooks/useRealtime.ts:72-111 | INSERT, UPDATE and DELETE are each registered iff their handler or `onAll` is given, each at most once |
| Realtime.Registrations | src/hooks/useRealtime.ts:69-111 | one listener per kind, on the table and filter, under schema 'public' unless another is named |
| Realtime.Start | src/hooks/useRealtime.ts:66-114 | nothing without a channel or when already listening; otherwise listening afterwards, with one listener per wanted kind appended for the current channel; the supervisor is untouched |
| Realtime.Stop | src/hooks/useRealtime.ts:117-125 | nothing without a channel or when not listening; otherwise the channel is reset and listening ends |
| Realtime.StartIdempotent | src/hooks/useRealtime.ts:67 | starting twice is starting once |
| Realtime.StopIdempotent | src/hooks/useRealtime.ts:118 | stopping twice is stopping once |
| Realtime.StartRegistersKinds | src/hooks/useRealtime.ts:72-113 | a start registers a listener for a kind iff its handler or `onAll` is given |
| Realtime.StartUsesCurrentChannel | src/hooks/useRealtime.ts:69-111 | every listener a start adds is on the current channel and table, under 'public' unless another schema is named |
| Realtime.OnReconnectAsWrittenNeverRegisters | src/hooks/useRealtime.ts:35-40 | the `onReconnect` callback as written never changes anything |
| Realtime.ReconnectLosesListeners | src/hooks/useRealtime.ts:35-40 | the `onReconnect` callback by itself registers nothing: right after it runs, the hook still reports listening, yet the new channel carries none of its listeners |
| Realtime.OnReconnect | src/hooks/useRealtime.ts:35-40 | the intended callback keeps the listening flag and the supervisor |
| Realtime.OnReconnectRestoresListeners | src/hooks/useRealtime.ts:35-40 | with the intended callback, every wanted kind is registered on the new channel |
| Realtime.RealtimeHook.constructor | src/hooks/useRealtime.ts:25 | not listening, no listeners |
| Realtime.RealtimeHook.StartListening | src/hooks/useRealtime.ts:66-114 | the three `if`s register the listeners, and the state becomes `Start` of the old one |
| Realtime.RealtimeHook.Reconnected | src/hooks/useRealtime.ts:35-40 | the state becomes `OnReconnectAsWritten` of the old one |
| Realtime.RealtimeHook.StopListening | src/hooks/useRealtime.ts:117-125 | the state becomes `Stop` of the old one |
| Records.Merge | src/store/roomStore.ts:138 | `{ ...r, ...patch }` has the keys of both, with the patch's values winning |
| Records.UpdateById | src/store/roomStore.ts:136-138 | same length; a row with that id is merged with the patch, every other row is kept |
| Records.RemoveByIdSpec | src/store/roomStore.ts:143-145 | a delete keeps exactly the rows without that id, in order, piece by piece; deleting again changes nothing |
| Records.UpdateKeepsUntouched | src/store/roomStore.ts:136-138 | an update keeps every field the patch does not name, and who carries the id |
| Records.FindFirst | src/hooks/useRoomPresence.ts:309 | the first row whose field matches, or none exactly when no row matches |
| RoomStore.CurrentAfterUpdate | src/store/roomStore.ts:139-140 | the current room is merged with the patch iff its id matches |
| RoomStore.CurrentAfterDelete | src/store/roomStore.ts:146 | the current room is cleared iff its id matches |
| RoomStore.Reported | src/store/roomStore.ts:591-593 | a failure is reported with the action's prefix; success keeps the error |
| RoomStore.UpdateKeepsCurrentInList | src/store/roomStore.ts:136-141 | after an update, a current room that was listed is still listed |
| RoomStore.DeleteKeepsCurrentInList | src/store/roomStore.ts:143-147 | after a delete, a current room that remains is still listed |
| RoomStore.Store.constructor | src/store/roomStore.ts:107-115 | empty lists, no current room, no error |
| RoomStore.Store.SetCurrentRoom | src/store/roomStore.ts:122 | only the current room changes |
| RoomStore.Store.AddRoom | src/store/roomStore.ts:131-134 | the room is appended with no check for an existing id; nothing else changes |
| RoomStore.Store.UpdateRoom | src/store/roomStore.ts:136-141 | every room with that id is merged, and so is the current room iff it has that id |
| RoomStore.Store.DeleteRoom | src/store/roomStore.ts:143-147 | every room with that id is removed, and the current room is cleared iff it has that id |
| RoomStore.Store.AddParticipant | src/store/roomStore.ts:150-153 | appended, nothing else changes |
| RoomStore.Store.UpdateParticipant | src/store/roomStore.ts:155-160 | participants with that id are merged, the others kept in order |
| RoomStore.Store.RemoveParticipant | src/store/roomStore.ts:162-165 | participants with that id are removed, the others kept in order |
| RoomStore.Store.AddMessage | src/store/roomStore.ts:168-171 | appended, nothing else changes |
| RoomStore.Store.DeleteMessage | src/store/roomStore.ts:173-176 | messages with that id are removed, the others kept in order |
| RoomStore.Store.JoinRoom | src/store/roomStore.ts:536-595 | without a user, the error only; otherwise the participation table and the result follow the delete-then-insert over the given room ids, and the first failure is reported |
| RoomStore.Store.LeaveRoom | src/store/roomStore.ts:597-625 | without a current room, false and no effect; otherwise the user's rows for that room are deleted, or the failure is reported |
| RoomStore.Store.SendMessage | src/store/roomStore.ts:627-656 | without a room, or with whitespace-only content, false and no effect; otherwise the trimmed content is inserted |
| RoomStore.Store.ToggleAudio | src/store/roomStore.ts:658-686 | without a current room, false and no effect; otherwise only the audio flag of the user's row there is set |
| RoomStore.Store.ToggleVideo | src/store/roomStore.ts:688-716 | without a current room, false and no effect; otherwise only the video flag of the user's row there is set |
| Participation.SetMedia | src/hooks/useRoomPresence.ts:282-295 | an update keeps the length and every row of other users or rooms, and sets exactly the given flags |
| Participation.SetNothing | src/hooks/useRoomPresence.ts:287 | an update with no flag changes no row |
| Participation.SwitchLeavesOneRow | src/hooks/useRoomPresence.ts:228-245 | after the delete and the insert, the user's only row among the rooms is the new one, and the other rows are kept |
| Participation.JoinSteps | src/store/roomStore.ts:549-590 | a failed room lookup or room-id query changes no row; a join without failure ends with the new row for that room and user |
| Participation.JoinSucceedsIff | src/store/roomStore.ts:549-590 | a join succeeds iff no query fails (the delete is skipped when there are no room ids) |
| Participation.JoinLeavesOneRow | src/store/roomStore.ts:569-588 | a successful join leaves the user exactly one row among the listed rooms, the new one with both media flags on, and keeps all other rows |
| Participation.FailedInsertLeavesNoRow | src/store/roomStore.ts:569-588 | when the insert fails after the delete, the user is in none of the listed rooms |
| Participation.LeaveSteps | src/hooks/useRoomPresence.ts:262-268 | the leave reports the delete's failure, and a failure changes nothing |
| Participation.LeaveRemovesOnlyThatRoom | src/hooks/useRoomPresence.ts:262-266 | a leave removes exactly the user's rows for that room |
| Participation.MediaSteps | src/hooks/useRoomPresence.ts:289-297 | the media update reports its failure; on success the flags are set |
| Participation.SendSteps | src/store/roomStore.ts:642-649 | the send reports its failure; on success one message row is appended |
| Participation.Tables.constructor | src/store/roomStore.ts:570-586 | the tables start with the given rows |
| RoomPresence.Formatted | src/hooks/useRoomPresence.ts:136-139 | the refetched row's fields, plus `user` taken from `users` |
| RoomPresence.RoomLookup | src/hooks/useRoomPresence.ts:209-215 | the room's workspace, exactly when the lookup did not fail and the room exists |
| RoomPresence.WorkspaceRoomIds | src/hooks/useRoomPresence.ts:218-225 | exactly the ids of the rooms of that workspace |
| RoomPresence.JoinRoomSteps | src/hooks/useRoomPresence.ts:209-247 | an unknown room or a failed lookup or room query changes no row; a join without failure ends with the new row for that room |
| RoomPresence.JoinRoomSucceedsIff | src/hooks/useRoomPresence.ts:209-247 | the join succeeds iff the room exists and no query fails |
| RoomPresence.JoinRoomLeavesOneRow | src/hooks/useRoomPresence.ts:218-245 | after a successful join the user has exactly one row among the rooms of the workspace, for that room with both flags on; rows of other users and other workspaces are kept |
| RoomPresence.MediaPatch | src/hooks/useRoomPresence.ts:282-284 | the update holds exactly the flags that were given, with their values |
| RoomPresence.UserIdValue | src/hooks/useRoomPresence.ts:309 | `user?.id` is undefined exactly when nobody is signed in |
| RoomPresence.CurrentParticipantOfNobody | src/hooks/useRoomPresence.ts:309 | a found participant carries the user's id; with nobody signed in, the first participant lacking `user_id` is found |
| RoomPresence.Hook.CurrentParticipant | src/hooks/useRoomPresence.ts:309 | the found participant is one of the list carrying the user's id; none is found exactly when no participant carries it |
| RoomPresence.Hook.constructor | src/hooks/useRoomPresence.ts:20-40 | no participants, no error |
| RoomPresence.Hook.OnInsert | src/hooks/useRoomPresence.ts:135-146 | the formatted participant is appended; a failed refetch is reported and adds nothing |
| RoomPresence.Hook.OnUpdate | src/hooks/useRoomPresence.ts:157-166 | `payload.new` is merged into the participants with its id; the others stay, in order |
| RoomPresence.Hook.OnDelete | src/hooks/useRoomPresence.ts:176-184 | the participants with the old row's id are removed; the others stay, in order |
| RoomPresence.Hook.JoinRoom | src/hooks/useRoomPresence.ts:201-254 | without a user or a room id nothing happens; otherwise the table and the result follow the join sequence, with the first failure reported |
| RoomPresence.Hook.LeaveRoom | src/hooks/useRoomPresence.ts:257-275 | without a user or a room id nothing happens; otherwise only the rows keyed by (user, room) are deleted |
| RoomPresence.Hook.UpdateMediaState | src/hooks/useRoomPresence.ts:278-306 | nothing without a user, a room id or any flag; otherwise exactly the given flags are updated on the user's row |
| WorkspacePresence.RoomByUserKeys | src/hooks/useWorkspacePresence.ts:99-102 | the room map has a key for each user with a participation row, and no other |
| WorkspacePresence.RoomByUserIsLastRow | src/hooks/useWorkspacePresence.ts:99-102 | a user's key holds the room of that user's last row |
| WorkspacePresence.RoomByUser | src/hooks/useWorkspacePresence.ts:99-102 | the last row always wins: its user maps to its room |
| WorkspacePresence.FromMember | src/hooks/useWorkspacePresence.ts:106-116 | the entry keeps the user's id; a falsy status reads 'offline'; the current room is the mapped room when it is truthy, else undefined |
| WorkspacePresence.MergeMembers | src/hooks/useWorkspacePresence.ts:105-117 | one entry per member, in the members' order |
| WorkspacePresence.MemberRoomIsLastRow | src/hooks/useWorkspacePresence.ts:99-115 | a member's current room comes from the last row seen for that user |
| WorkspacePresence.MemberWithoutRowHasNoRoom | src/hooks/useWorkspacePresence.ts:107-115 | a member without a row has no current room |
| WorkspacePresence.UpdateMatching | src/hooks/useWorkspacePresence.ts:144-156 | same length; only the entries with that id change |
| WorkspacePresence.EventsTouchOnlyTheMatchingUser | src/hooks/useWorkspacePresence.ts:144-210 | a users UPDATE replaces status and message only by truthy values; an INSERT sets only the matching user's room and adds nobody; a DELETE clears the matching user's room, whatever room the row was for |
| WorkspacePresence.Hook.constructor | src/hooks/useWorkspacePresence.ts:45-50 | no users, loading, no error |
| WorkspacePresence.Hook.BuildRoomMap | src/hooks/useWorkspacePresence.ts:99-102 | the `forEach` of `set` calls builds the room map of the rows |
| WorkspacePresence.Hook.Load | src/hooks/useWorkspacePresence.ts:55-125 | loading ends in every case; a failed query or a missing user row is reported and keeps the list; otherwise the list is the merge |
| WorkspacePresence.Hook.OnUserUpdate | src/hooks/useWorkspacePresence.ts:142-157 | the list becomes the status update of the matching user |
| WorkspacePresence.Hook.OnParticipantInsert | src/hooks/useWorkspacePresence.ts:170-192 | the matching user enters the fetched room; a failed fetch changes nothing |
| WorkspacePresence.Hook.OnParticipantDelete | src/hooks/useWorkspacePresence.ts:202-211 | the matching user's room is cleared |
| Seqs.DedupeSpec | src/store/workspaceStore.ts:77-79 | the dedupe keeps each key once, keeps first occurrences in order, never adds and loses no key |
| Seqs.FirstPartWins | src/store/workspaceStore.ts:74-79 | after deduping `a + b`, an entry whose key occurs in `a` comes from `a`, and such entries come first |
| Seqs.Filter | src/app/api/users/search/route.ts:58-60 | the result never adds elements, and keeps exactly those that pass |
| Seqs.FilterDistributes | src/app/api/users/search/route.ts:58-60 | filtering works piece by piece, so survivors keep their order |
| WorkspaceStore.MergeFetchedSpec | src/store/workspaceStore.ts:74-79 | the fetched list has unique ids, covers every id of both sources, owned ones first and as owned |
| WorkspaceStore.MergeFetched | src/store/workspaceStore.ts:74-79 | the merged list has unique ids and is never longer than the two lists together |
| WorkspaceStore.ReplaceById | src/store/workspaceStore.ts:149 | same length; the entries with that id are replaced by the returned row |
| WorkspaceStore.CurrentAfter | src/store/workspaceStore.ts:148-171 | the current workspace is replaced iff its id matches |
| WorkspaceStore.Embedded | src/store/workspaceStore.ts:70-72 | one embedded workspace per membership row, in order |
| WorkspaceStore.CreatePayload | src/store/workspaceStore.ts:99-104 | an empty description or logo is stored as null |
| WorkspaceStore.AdminMembership | src/store/workspaceStore.ts:111-115 | the creator becomes an 'admin' of the new workspace |
| WorkspaceStore.Store.constructor | src/store/workspaceStore.ts:33-36 | empty list, no current workspace, not loading, no error |
| WorkspaceStore.Store.SetCurrentWorkspace | src/store/workspaceStore.ts:87 | only the current workspace changes |
| WorkspaceStore.Store.FetchWorkspaces | src/store/workspaceStore.ts:39-85 | nothing without a user id; a failure keeps the list and sets the error; success sets the deduped merge; loading ends |
| WorkspaceStore.Store.CreateWorkspace | src/store/workspaceStore.ts:89-129 | null and no change without a user; the row is appended only when both inserts succeed; loading ends |
| WorkspaceStore.Store.UpdateWorkspace | src/store/workspaceStore.ts:131-156 | the returned row replaces the entries with that id, and the current workspace iff it matches; a failure changes only the error |
| WorkspaceStore.Store.DeleteWorkspace | src/store/workspaceStore.ts:158-175 | the entries with that id are removed and the current workspace is cleared iff it matches; a failure changes only the error |
| WorkspaceStore.DeleteRemovesOnlyThatId | src/store/workspaceStore.ts:168 | after a delete no entry has that id, and every other entry stays, in order |
| WorkspaceStore.ReplaceKeepsIds | src/store/workspaceStore.ts:149 | an update keeps every entry's id, so unique ids stay unique |
| Invitations.Lookup | src/app/api/invitations/route.ts:22-41 | `.single()` finds the row exactly when one row carries the token |
| Invitations.ProcessedMessage | src/app/api/invitations/route.ts:55 | "acceptée" only for 'accepted', "rejetée" for any other status |
| Invitations.CheckInvitation | src/app/api/invitations/route.ts:43-59 | no rejection exactly when the invitation was found, is not expired and is pending |
| Invitations.CheckOrder | src/app/api/invitations/route.ts:43-59 | unknown gives NOT_FOUND/404, else expired gives EXPIRED/410, else not pending gives INVALID_STATE/400 |
| Invitations.ExpiryIsStrict | src/app/api/invitations/route.ts:48 | an invitation expiring exactly now is still valid, and expired a millisecond later |
| Invitations.Expired | src/app/api/invitations/route.ts:48 | an unparsable expiry date (NaN) never expires |
| Invitations.ExpiryIsFinal | src/app/api/invitations/route.ts:48 | once expired, an invitation stays expired at every later time |
| Invitations.PostRulesMeaning | src/app/api/invitations/route.ts:12-17 | a body passes iff it has a token and an action that is 'accept' or 'reject' |
| Invitations.PostRules | src/app/api/invitations/route.ts:12-17 | two required rules, for `token` and `action`, with distinct field names |
| Invitations.SetStatus | src/app/api/invitations/route.ts:83-119 | the rows with that id get the status; every other row is kept |
| Invitations.InvalidBodyRejected | src/app/api/invitations/route.ts:12-17 | an invalid body gets VALIDATION/400 and changes nothing |
| Invitations.OnlyPendingChanges | src/app/api/invitations/route.ts:43-70 | the tables change only for a found, unexpired, pending invitation addressed to the user, when the profile row was found |
| Invitations.EmailMismatchForbidden | src/app/api/invitations/route.ts:62-70 | a found profile with another address gives FORBIDDEN/403 and no change; without a profile row, never |
| Invitations.AcceptFallback | src/app/api/invitations/route.ts:73-113 | when the procedure fails, the invitation becomes 'accepted' and a membership with its role is added iff the user was not already a member |
| Invitations.RejectAddsNoMember | src/app/api/invitations/route.ts:114-126 | a rejection only ever sets 'rejected' and never adds a membership |
| Invitations.Respond | src/app/api/invitations/route.ts:7-130 | a success is a 200 that passed validation and the three checks; a failed answer changes the tables only when the fallback's status update went through and its membership insert failed, with no membership added |
| InvitationVerify.Echo | src/app/api/invitations/verify/route.ts:86-99 | the echo carries every invitation field, and `workspace.id` is the invitation's `workspace_id` |
| InvitationVerify.MissingTokenRejected | src/app/api/invitations/verify/route.ts:14-17 | a missing or empty token gives VALIDATION/400 "Token manquant" |
| InvitationVerify.TestTokenNeedsNoLookup | src/app/api/invitations/verify/route.ts:20-33 | the test token succeeds whatever the table holds, expiring a day from now |
| InvitationVerify.VerifyFollowsChecks | src/app/api/invitations/verify/route.ts:40-99 | any other token goes through the check chain; success means found, pending and not expired, with the echo |
| InvitationVerify.Verify | src/app/api/invitations/verify/route.ts:6-104 | the answer is a success exactly when its status is 200, and only for a non-empty token |
| UsersApi.ParamOr | src/app/api/users/route.ts:13-14 | an absent or empty parameter takes the fallback |
| UsersApi.PagingDefaults | src/app/api/users/route.ts:13-14 | without parameters, page 1 of 20 rows |
| UsersApi.OneParses | src/app/api/users/route.ts:13 | the default page `'1'` parses to 1 |
| UsersApi.TwentyParses | src/app/api/users/route.ts:14 | the default page size `'20'` parses to 20 |
| UsersApi.PageSizeCapped | src/app/api/users/route.ts:14 | the size is the parsed parameter, but never above 50 |
| UsersApi.RangeOf | src/app/api/users/route.ts:15-16 | a range exists exactly when page and size are numbers |
| UsersApi.RangeSpansPageSize | src/app/api/users/route.ts:15-16 | a range spans exactly `pageSize` rows, starting after the previous pages |
| UsersApi.PagesContiguous | src/app/api/users/route.ts:15-16 | consecutive pages are contiguous and, for a positive size, disjoint |
| UsersApi.CeilDivIsLeastCover | src/app/api/users/route.ts:45 | for a positive size, the page count is the least number of pages holding the rows |
| UsersApi.TotalPages | src/app/api/users/route.ts:45 | a null or zero count gives 0 pages |
| UsersApi.LastRowOnLastPage | src/app/api/users/route.ts:15-45 | the last row of a non-empty result lies on the page `totalPages` names |
| UsersApi.SearchFilter | src/app/api/users/route.ts:19-29 | the name/email filter is sent exactly for a non-empty query |
| UsersApi.NumberJson | src/app/api/users/route.ts:42-45 | a non-finite number is written as null, and only it |
| UsersApi.ListUsersAnswers | src/app/api/users/route.ts:22-50 | a failure is mapped as a database error; success echoes the rows, the total (0 for null) and the page count |
| UsersApi.ListUsersQuery | src/app/api/users/route.ts:13-29 | the name/email filter is sent exactly for a non-empty query, over the range of the requested page and size |
| UsersApi.DefaultRange | src/app/api/users/route.ts:13-16 | without parameters, rows 0 to 19 are asked for |
| UsersApi.ListUsers | src/app/api/users/route.ts:7-51 | the answer is a success exactly when the query succeeded |
| UserSearch.SearchResults | src/app/api/users/search/route.ts:26-31 | at most ten matching users, never the caller |
| UserSearch.MemberIdsSpec | src/app/api/users/search/route.ts:38-55 | the listed ids are exactly those of the workspace's membership rows |
| UserSearch.OwnerId | src/app/api/users/search/route.ts:46-56 | a PGRST116 failure leaves the owner undefined; any other failure is thrown |
| UserSearch.ShortQueryRejected | src/app/api/users/search/route.ts:14-20 | a VALIDATION/400 answer exactly when the query is missing or under two characters |
| UserSearch.DbErrorCodes | src/lib/api-utils.ts:66-91 | a database error never maps to VALIDATION |
| UserSearch.ResultsBounded | src/app/api/users/search/route.ts:26-65 | every user returned matched, is not the caller, and at most ten are returned |
| UserSearch.WorkspaceMembersExcluded | src/app/api/users/search/route.ts:36-62 | with a workspace, the answer is the results in order without its members and its owner |
| UserSearch.MissingWorkspaceHasNoOwner | src/app/api/users/search/route.ts:46-56 | a workspace without its row leaves no owner to exclude |
| UserSearch.NoWorkspaceUnfiltered | src/app/api/users/search/route.ts:36-65 | without a workspace the results are returned as they are |
| UserSearch.Search | src/app/api/users/search/route.ts:6-69 | a success is a 200 list, given only for a query of at least two characters whose search did not fail |
| WorkspacesApi.ListIsDedupedOwnedFirst | src/app/api/workspaces/route.ts:34-44 | the list has unique ids, covers both queries, never adds, and owned workspaces come first and as owned |
| WorkspacesApi.ListFailures | src/app/api/workspaces/route.ts:17-46 | either query's failure is mapped, the owned one's first; null answers give an empty list |
| WorkspacesApi.ListWorkspaces | src/app/api/workspaces/route.ts:17-46 | a success is a 200 list with unique ids, given exactly when both queries succeeded and no row is null |
| WorkspacesApi.CreateRulesMeaning | src/app/api/workspaces/route.ts:57-61 | a body passes iff it has a name of 3 to 50 characters, a description of at most 500 and an http(s) logo URL |
| WorkspacesApi.CreateRuleByRule | src/app/api/workspaces/route.ts:58-60 | what each of the three rules demands of its field |
| WorkspacesApi.AllOfThree | src/app/api/workspaces/route.ts:57-61 | a three-rule table passes iff each of its rules passes |
| WorkspacesApi.CreateRules | src/app/api/workspaces/route.ts:57-61 | three rules with distinct field names; only `name` is required |
| WorkspacesApi.NewWorkspace | src/app/api/workspaces/route.ts:70-75 | the inserted row; falsy description and logo URL are stored as null |
| WorkspacesApi.CreateEffects | src/app/api/workspaces/route.ts:51-94 | a valid, stored body gets 201 with the row, plus an admin membership; an invalid body or failed insert writes nothing; a failed membership insert keeps the workspace without its admin |
| WorkspacesApi.CreateWorkspace | src/app/api/workspaces/route.ts:51-94 | the answer is a success exactly when a membership was added, a success is 201, and at most one workspace row is added |
| MeStatus.StatusRuleByRule | src/app/api/users/me/status/route.ts:13-14 | what each of the two rules demands of its field |
| MeStatus.StatusRules | src/app/api/users/me/status/route.ts:12-15 | two optional rules, for `status` and `status_message`, with distinct field names |
| MeStatus.StatusRulesMeaning | src/app/api/users/me/status/route.ts:12-15 | a body passes iff a given status is one of the four and a non-empty message has at most 100 characters |
| MeStatus.StatusPatchMeaning | src/app/api/users/me/status/route.ts:24-28 | the update holds each field iff the body defines it (null included), and always `updated_at`; an empty body writes only the time |
| MeStatus.StatusPatch | src/app/api/users/me/status/route.ts:24-28 | the update carries `updated_at`, now, and no field but the two and that one |
| MeStatus.UpdateStatusAnswers | src/app/api/users/me/status/route.ts:7-39 | an invalid body is answered 400 without a write; a valid one with the updated row |
| MeStatus.UpdateStatus | src/app/api/users/me/status/route.ts:7-39 | a success only for a valid body whose update succeeded; a failed update is mapped as a database error |
| MeApi.TaggedMemberships | src/app/api/users/me/route.ts:40-43 | one entry per membership: its workspace with its role |
| MeApi.ProfileGroupsWorkspaces | src/app/api/users/me/route.ts:35-47 | the profile keeps the user's fields, lists owned workspaces as returned and member ones tagged, null answers as empty lists |
| MeApi.GetProfile | src/app/api/users/me/route.ts:7-51 | a success exactly when both queries succeeded; the owned query's failure is mapped first |
| MeApi.ProfileRuleByRule | src/app/api/users/me/route.ts:60-63 | what each of the four rules demands of its field |
| MeApi.ProfileRules | src/app/api/users/me/route.ts:59-64 | four optional rules with distinct field names |
| MeApi.ProfileRulesMeaning | src/app/api/users/me/route.ts:59-64 | a body passes iff display name 2..50, an http(s) avatar, bio at most 500 and time zone at most 50, on non-empty strings |
| MeApi.AllOfFour | src/app/api/users/me/route.ts:59-64 | a four-rule table passes iff each of its rules passes |
| MeApi.ProfilePatchMeaning | src/app/api/users/me/route.ts:73-79 | the update holds exactly the defined fields, with their values, plus `updated_at` |
| MeApi.ProfilePatch | src/app/api/users/me/route.ts:73-79 | the update carries `updated_at`, now, and no field but the four profile fields and that one |
| MeApi.UpdateProfileAnswers | src/app/api/users/me/route.ts:54-90 | an invalid body is answered 400 without a write; a valid one with the updated row |
| MeApi.UpdateProfile | src/app/api/users/me/route.ts:54-90 | a success only for a valid body whose update succeeded; a failed update is mapped as a database error |
| Middleware.SomePathMatchesIff | src/middleware.ts:14 | the `some` holds iff the list is non-empty and the path is listed or under `/api/` |
| Middleware.PublicPaths | src/middleware.ts:6-14 | a path is public iff it is one of the four pages or lies under `/api/` |
| Middleware.AuthenticatedIff | src/middleware.ts:17-22 | authenticated iff some cookie name contains a session token name |
| Middleware.DecisionTable | src/middleware.ts:25-36 | no session on a non-public path redirects to login with the path; a session on the login page redirects to the dashboard; everything else passes |
| Middleware.Decide | src/middleware.ts:25-36 | a redirect to login keeps the path and happens only on non-public paths; a redirect to the dashboard only from the login page |
| Middleware.LoginPageNeverLoops | src/middleware.ts:25-34 | the login page is never redirected to itself, nor the dashboard to itself |
| MemberManagement.OwnerIsAdmin | src/components/workspace/MemberManagement.tsx:275-277 | nobody is admin without a user or a workspace; the owner always is |
| MemberManagement.IsAdmin | src/components/workspace/MemberManagement.tsx:275-281 | nobody is admin without a user and a current workspace |
| MemberManagement.MemberAdminIffFirstRowAdmin | src/components/workspace/MemberManagement.tsx:279-280 | anyone else is admin iff their first member row has role exactly 'admin'; no row means not admin |
| MemberManagement.SearchPanel.constructor | src/components/workspace/MemberManagement.tsx:122-128 | empty term, empty results, not searching |
| MemberManagement.SearchPanel.SearchUsers | src/components/workspace/MemberManagement.tsx:122-152 | a term under two characters clears the results and makes no request; otherwise one request for the term and workspace, results set on success, and searching ends |
| WorkspacesPage.TaggedOwned | src/app/workspaces/page.tsx:45 | owned workspaces are tagged 'owner' |
| WorkspacesPage.PageWorkspaces | src/app/workspaces/page.tsx:44-55 | the page lists unique ids, never more entries than the two answers hold |
| WorkspacesPage.PageListsEachWorkspaceOnce | src/app/workspaces/page.tsx:44-55 | each id of either query is listed once, owned first; null answers contribute nothing |
| WorkspacesPage.PageRoles | src/app/workspaces/page.tsx:44-55 | a workspace both owned and joined shows 'owner'; any other entry is a membership with its role |
| WorkspacesPage.TaggedEntries | src/app/workspaces/page.tsx:44-50 | an owned entry has role 'owner'; a member entry is a membership's spread with its role |
| Strings.Trim | src/store/roomStore.ts:630-645 | `trim()` never lengthens the content and leaves no whitespace at either end |
| Strings.TrimIsMiddleSlice | src/store/roomStore.ts:645 | the trimmed content is a slice of the content with only whitespace before and after it |
| Strings.TrimEmptyIffAllWhitespace | src/store/roomStore.ts:630 | the trimmed content is empty iff the content is whitespace only |
| Strings.ParseIntOfIntToString | src/app/api/users/route.ts:13-14 | `parseInt` reads back any number written in digits |

## Left out

- **Supabase.** The client and its query language are not modelled, nor row-level security. Each query is replaced by its answer, given as a parameter:
  - `.single()` finds a row only when exactly one matches;
  - `.limit(10)` keeps the first ten rows in table order;
  - the `ilike` match of the user search is a predicate parameter (`matches`).
- **`rpc('accept_workspace_invitation')`.** The procedure's own effect on success is not modelled. It may only fail, and then the fallback path runs.
- **Channels, timers and the clock.** Channel plumbing (`channel`, `on`, `subscribe`, `track`, `removeChannel`) is reduced to the state each hook keeps. Timers are a pending flag with an explicit fire step. `new Date()`, date parsing and `toISOString` are parameters.
- **React.** Effect scheduling, stale closures and async interleavings are not modelled. Each handler runs atomically. The non-atomic delete-then-insert of a room join is not modelled as an interleaving.
- **JS engine behaviour.**
  - Numbers are unbounded integers, and NaN and Infinity are `None`.
  - `===` on objects is taken as structural equality.
  - Spreading a string or an array into an object is not modelled: it gives `{}`.
  - `TypeError` messages are a parameter.
  - A body that is not valid JSON, or a JSON body that is not an object (`null`, `3`), is not modelled. On such a body `validateData` indexes into a non-object and the handler takes its 500 path; the model's bodies are always objects.
  - The invitation `token` is compared as a JSON value. PostgREST's `.eq` compares text, so a numeric token `123` would match the stored `"123"` there but not in the model.
- **The authentication layer.** `withAuth`, `getFullUser`, `src/lib/auth-api.ts`, `src/lib/api-client.ts` and `src/store/userStore.ts` are not part of this model. The signed-in user and the profile row are parameters.
- **Channel filter strings.** The filters in `useWorkspacePresence` interpolate query objects, so they have no stated meaning. The handlers are assumed to see only the filtered events.
- **Other `workspaceStore` actions.** `fetchMembers`, `addMember`, `updateMemberRole` and `removeMember` are not part of this model. They are CRUD glue outside the named actions.
- **Other `roomStore` actions.** The subscription helpers, with their async refetches, are not part of this model.
- **UI.** Components, pages and their label tables are presentation. Only `isAdmin`, `searchUsers` and the role tagging of the workspaces page are modelled.
- **The listening effect of `useRealtime`.** The effect at `src/hooks/useRealtime.ts:128-139` re-runs when `startListening` or `stopListening` get new identities, as they do after a reconnection. Its cleanup stops listening and its body starts again, so it may re-register the listeners on a later render. React's re-running of effects is not modelled, so the finding below is about the `onReconnect` callback by itself.
- Presence.SyncMap: the presence map is a Dafny `map`, which has no order. JavaScript `Map`s keep insertion order, so the order of `Array.from(presenceUsers.values())` (`src/hooks/usePresence.ts:215`) is not modelled.
- Presence.JoinMap: the insertion order of a joining user is not modelled, for the same reason.
- Presence.LeaveMap: the position of a user marked offline is not modelled, for the same reason.
- Validation.ValidateData: the `errors` object is a `map`, so the order of its keys is not modelled.
- Validation.IsUuid: writes the UUID regular expression of `validateData` out as a character-by-character predicate. No general regular-expression semantics is modelled.
- RoomStore.Store.JoinRoom: takes the room-id list as a parameter, because the source filters by the selected row object rather than by its `workspace_id`. The single-room guarantee is proved against `useRoomPresence` instead.
- Presence.PresenceHook.Sync: takes the presence snapshot as a parameter. The source reads it from a channel captured when the effect ran.

## Findings

| source | as written | input that shows it | evidently intended | confidence | as-written member | corrected member |
|---|---|---|---|---|---|---|
| src/hooks/useRealtime.ts:35-40 | `onReconnect` calls `startListening()` only when `isListening` holds, but `startListening` returns at once in that case (line 67) | a listening hook whose channel drops and reconnects: when `onReconnect` has run, `isListening` is still true and the callback has put no listener on the new channel (the claim is about the callback alone; the effect at lines 128-139 may re-register on a later render) | re-register the listeners on the channel opened by the reconnection | not executed | Realtime.OnReconnectAsWritten (see Realtime.ReconnectLosesListeners) | Realtime.OnReconnect (see Realtime.OnReconnectRestoresListeners) |
