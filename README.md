# Skill exchange: a verified model of the exchange engine and its surroundings

This project models, in Dafny, the core of a skill-exchange service. Users escrow
points to book a session with another user. They accept, decline, chat, move the
exchange through its statuses and rate it. Points move through a ledger.

The parts modelled are:

- **The exchange routes** (`routes/exchanges.js`): create, my-exchanges, get,
  accept, decline, message, status and rate.
  - The route logic is written as pure step functions over a `Store` value. The
    store holds the exchanges, balances, ledger, messages, ratings, averages and
    notices.
  - `class Exchanges.Engine` holds the same state in fields. Every route is a
    method that changes the fields in the route's order. Each method is proved to
    end in the state its step function gives.
  - Every step keeps the ledger reconciled with the balances: each balance equals
    its start plus the net of the ledger entries for that user.
- **The notification inbox** (`routes/notifications.js`): list, mark-read,
  mark-all-read, unread count and delete, each scoped to the caller.
  `class Notifications.Inbox` holds the table as a row sequence.
- **The socket relay** (`backend/server.js:143-198`): joining rooms, the
  save-then-broadcast chat path and forwarding of status updates.
  `class Relay.SocketServer` runs each handler over its rooms and emit log, and it
  saves messages into the same `Engine` the routes use. The page sends each chat
  message through the route and then through the socket, so the table holds two
  copies under different ids.
- **The client logic**:
  - the message merge, the rating gate and the status buttons of the exchange page
    (`ExchangeDetails.js`);
  - the socket provider's connection flag, gated emits and notification list
    (`SocketContext.js`);
  - the dashboard's tab filter and stat cards (`Dashboard.js`).
- **The user routes** (`backend/routes/users.js`): transaction paging, the
  profile's average rating, the update denylist and skill validation.

The code is followed where a design reading could suggest otherwise:

- The status route never checks the current status. Completing twice, or
  cancelling after completion, settles again. This is modelled as written, and
  lemmas exhibit both cases.
- The rate route checks, in this order: requester, then `Completed`, then target,
  then score. It never looks for an earlier rating.
- Scores are not required to be whole numbers.
- Points are `real`. The code multiplies `hourlyRate` by `durationHours` with no
  rounding and no sign check, so nothing keeps a balance whole or non-negative.

## Model

| member | source | states |
|---|---|---|
| Shared.ParseStatus | routes/exchanges.js:403-410 | a text is accepted exactly when it is one of the five status names, and the status it yields spells that text |
| Shared.MeanBounds | routes/exchanges.js:529-531 | the mean of scores that all lie in [lo, hi] lies in [lo, hi] |
| Exchanges.NewExchange | routes/exchanges.js:84-99 | the stored exchange is Pending, has the requester and the provider, takes its defaults (Beginner, Exchange, duration 1.0) and costs `rate * duration` |
| Exchanges.CreateStep | routes/exchanges.js:32-131 | each guard in order (missing fields, unknown provider, self-exchange, insufficient points) fails with no state change; success iff every guard passes; on success it stores a Pending exchange under a fresh id, debits exactly the price, logs one Payment, notifies both parties and keeps the ledger reconciled |
| Exchanges.AcceptStep | routes/exchanges.js:198-248 | 404, 403 for a non-provider, then "no longer pending"; success iff the provider acts on a Pending exchange; sets Accepted with balances and ledger unchanged |
| Exchanges.DeclineStep | routes/exchanges.js:251-318 | same guards as accept; sets Cancelled, credits the requester the price with one Award entry and sends the two notices |
| Exchanges.GetDetail | routes/exchanges.js:153-195 | 404 for an unknown exchange, 403 for a non-party; otherwise the exchange with exactly its messages and ratings |
| Exchanges.MyExchanges | routes/exchanges.js:134-150 | lists exactly the exchanges the actor is a party to |
| Exchanges.MessageStep | routes/exchanges.js:321-378 | 404 and 403 guards, empty content rejected; success iff party and content; the stored message gets an id above every earlier one and type `text` by default; the store changes only by that appended row and the id counter, so exchanges, balances, ledger, notices, ratings and averages are untouched |
| Exchanges.WithMessage | routes/exchanges.js:350-355 | the one message table both the route and the socket relay write: one row appended under the next id, earlier rows kept, no other table changed, the invariant kept and the new id above every stored one |
| Exchanges.Payee | routes/exchanges.js:413-449 | Completed pays the provider, Cancelled the requester, any other status nobody |
| Exchanges.StatusStep | routes/exchanges.js:381-472 | 404, 403 for non-parties, "Invalid status" outside the five names; success iff all three pass, with no check of the current status; writes the status, pays the payee the price with one Award entry, notifies the counterpart, keeps the ledger reconciled |
| Exchanges.RateStep | routes/exchanges.js:475-554 | checks requester, then Completed, then target equals provider, then 1 ≤ score ≤ 5; success iff all pass; appends the rating and sets the provider's stored average to the mean of all their scores, which lies in [1, 5] |
| Exchanges.IdsBelowIncreasing | routes/exchanges.js:350-355 | stored message ids increase and stay below the next id |
| Exchanges.ReconcilesTransitive | routes/exchanges.js:98-101 | two reconciled steps in a row give a reconciled run (the ledger is append-only) |
| Exchanges.Exchange.Counterpart | routes/exchanges.js:452 | the other party: the provider for the requester, the requester for anyone else, and never the actor itself when the parties differ |
| Exchanges.Engine.Create | routes/exchanges.js:84-116 | writes the exchange, then debits, then notifies, ending in CreateStep's state and reply |
| Exchanges.Engine.DeductPoints | routes/exchanges.js:101 | lowers the user's balance by the amount and appends one Payment entry |
| Exchanges.Engine.AwardPoints | routes/exchanges.js:283-289 | raises the user's balance by the amount and appends one Award entry |
| Exchanges.Engine.Accept | routes/exchanges.js:198-248 | ends in AcceptStep's state and reply |
| Exchanges.Engine.Decline | routes/exchanges.js:251-318 | writes the status, refunds, notifies; ends in DeclineStep's state and reply |
| Exchanges.Engine.Get | routes/exchanges.js:153-195 | answers only parties, with the stored exchange |
| Exchanges.Engine.Mine | routes/exchanges.js:134-150 | exactly the actor's exchanges |
| Exchanges.Engine.SendMessage | routes/exchanges.js:321-378 | ends in MessageStep's state and reply |
| Exchanges.Engine.AddMessage | routes/exchanges.js:350-355 | performs WithMessage and returns the appended row |
| Exchanges.Engine.UpdateStatus | routes/exchanges.js:411-463 | writes the status, then awards on Completed or Cancelled, then notifies; ends in StatusStep's state and reply |
| Exchanges.Engine.Rate | routes/exchanges.js:520-543 | ends in RateStep's state and reply |
| ExchangeProperties.RunReconciles | routes/exchanges.js:98-101 | after any sequence of route calls every balance equals its start plus its net ledger entries |
| ExchangeProperties.CreateThenDeclineRestores | routes/exchanges.js:279-289 | create followed by decline leaves every balance as it was, and the two ledger entries cancel |
| ExchangeProperties.CreateThenAccept | routes/exchanges.js:211-226 | accepting a fresh exchange succeeds and leaves the escrow in place |
| ExchangeProperties.CreateAcceptCompleteConserves | routes/exchanges.js:413-429 | create, accept, then Completed once moves exactly the price from requester to provider, keeps their sum and every other balance, and its ledger entries cancel |
| ExchangeProperties.RepeatedCompletionPaysTwice | routes/exchanges.js:403-429 | sending Completed twice pays the provider twice the price, new points no one paid |
| ExchangeProperties.CancelAfterCompletionPaysBoth | routes/exchanges.js:413-449 | Cancelled after Completed refunds the requester while the provider keeps the payout |
| ExchangeProperties.SecondRatingAccepted | routes/exchanges.js:490-531 | a second rating of the same exchange succeeds and is stored as well |
| Notifications.OwnedBy | routes/notifications.js:106-109 | exactly the caller's rows |
| Notifications.UnreadZeroIff | routes/notifications.js:106-115 | the unread count is zero iff every one of the caller's rows is read |
| Notifications.UnreadCount | routes/notifications.js:106-109 | the unread count never exceeds the number of the caller's rows |
| Notifications.ListFor | routes/notifications.js:33-34 | only the caller's rows, newest first, exactly `min(limit, owned)` of them (all of them for a negative limit) |
| Notifications.ListNewestFirst | routes/notifications.js:33-34 | on an ordered table the listing's ids strictly decrease |
| Notifications.SetRead | routes/notifications.js:68 | rows with the id become read, every other row is unchanged, the length is kept |
| Notifications.MarkReadOnlyThat | routes/notifications.js:68 | with distinct ids, marking a row read changes that row only |
| Notifications.MarkReadCount | routes/notifications.js:68 | marking a row read lowers its owner's unread count by one if it was unread, and no one else's |
| Notifications.MarkAllOf | routes/notifications.js:87 | only the caller's rows become read |
| Notifications.MarkAllClearsCaller | routes/notifications.js:87 | afterwards the caller's unread count is 0 |
| Notifications.MarkAllKeepsOthers | routes/notifications.js:87 | every other user's unread count is unchanged |
| Notifications.Remove | routes/notifications.js:145-148 | exactly the caller's row with that id is gone, the rest stay in order |
| Notifications.RemoveOwnedShrinksByOne | routes/notifications.js:133-148 | with distinct ids, deleting an owned notification removes exactly one row |
| Notifications.RemoveKeepsOthers | routes/notifications.js:145-148 | every other user's rows are unchanged, in order |
| Notifications.AddRaisesUnread | routes/notifications.js:106-115 | a new unread notification raises its owner's unread count by one and no one else's |
| Notifications.Inbox.List | routes/notifications.js:31-48 | returns ListFor with the limit defaulted to 50: only the caller's rows, `min(50, owned)` of them without a limit, at most `limit` for a limit of 0 or more, all of them for a negative one |
| Notifications.Inbox.MarkRead | routes/notifications.js:51-82 | not found and no change unless the caller owns the id, else SetRead; ids stay ordered |
| Notifications.Inbox.MarkAllRead | routes/notifications.js:85-101 | the table becomes MarkAllOf of the caller |
| Notifications.Inbox.Unread | routes/notifications.js:104-125 | returns the caller's unread count |
| Notifications.Inbox.Delete | routes/notifications.js:128-162 | not found and no change unless the caller owns the id, else Remove; ids stay ordered |
| Relay.Joined | backend/server.js:147-156 | joining adds the session to that room and changes no other room |
| Relay.Handle | backend/server.js:143-198 | only a saved `send_message` changes the database, only the two join handlers change rooms, and exactly `send_message` and `status_update` emit |
| Relay.HandleKeeps | backend/server.js:143-198 | every handler keeps the database invariant and the ledger reconciled, changes no table but the messages, only appends messages and emits, and gives a saved message an id no stored message has |
| Relay.MembershipPersists | backend/server.js:147-156 | no handler removes a session from a room |
| Relay.LeaveIsIgnored | backend/server.js:143-198 | `leave_exchange` changes nothing, because the server has no handler for it |
| Relay.SendBroadcastsSaved | backend/server.js:163-179 | the message is saved through the shared message table, then broadcast with its new id and the payload's fields to the whole exchange room, sender included; type `text`, name `Unknown` and picture null by default |
| Relay.FailedSendTellsOnlySender | backend/server.js:183-186 | when saving fails nothing is stored or broadcast, and only the sender gets `message_error` |
| Relay.StatusSkipsSender | backend/server.js:190-192 | a status update reaches every other member of the room, never the sender |
| Relay.JoinedSessionReceives | backend/server.js:153-179 | once a session has joined an exchange room, every later successful send to that exchange reaches it |
| Relay.SocketServer.constructor | backend/server.js:143-145 | no rooms and no emits, over the route handlers' Engine |
| Relay.SocketServer.OnJoin | backend/server.js:147-150 | performs the join handler |
| Relay.SocketServer.OnJoinExchange | backend/server.js:153-156 | performs the join_exchange handler |
| Relay.SocketServer.OnSendMessage | backend/server.js:159-187 | saves into the route handlers' Engine, then broadcasts, or reports the failure to the sender |
| Relay.SocketServer.OnStatusUpdate | backend/server.js:190-192 | forwards to the room minus the sender |
| SocketContext.MarkAsRead | client/src/contexts/SocketContext.js:109-117 | entries with the id become read with the time stamped, the others are unchanged, the length is kept |
| SocketContext.Step | client/src/contexts/SocketContext.js:21-121 | only opening a socket changes the user; anything emitted is emitted while connected; only a push, mark-read or clear changes the list |
| SocketContext.MarkAsReadCount | client/src/contexts/SocketContext.js:109-117 | the unread count drops by exactly the unread entries with that id, none remain, and marking again changes no count |
| SocketContext.PushPrepends | client/src/contexts/SocketContext.js:50-53 | a pushed notification goes first; the list grows by one and the rest is unchanged |
| SocketContext.ConnectionFlag | client/src/contexts/SocketContext.js:31-47 | `connect` sets connected and emits `join` with the user id; `disconnect` and `connect_error` clear it |
| SocketContext.CallsNeedConnection | client/src/contexts/SocketContext.js:85-107 | the four page calls emit iff a socket exists and is connected |
| SocketContext.SilentUntilConnected | client/src/contexts/SocketContext.js:85-107 | a disconnected provider emits nothing until a `connect` event |
| SocketContext.StepKeepsValid | client/src/contexts/SocketContext.js:31-83 | a connected provider always has a socket, and the emit log only grows |
| SocketContext.ClearEmpties | client/src/contexts/SocketContext.js:119-121 | clearing empties the list |
| SocketContext.SocketProvider.OnConnect | client/src/contexts/SocketContext.js:31-37 | performs the connect handler |
| SocketContext.SocketProvider.OnDisconnect | client/src/contexts/SocketContext.js:39-47 | performs the disconnect and connect_error handlers |
| SocketContext.SocketProvider.OnNotification | client/src/contexts/SocketContext.js:50-53 | prepends the notification |
| SocketContext.SocketProvider.Call | client/src/contexts/SocketContext.js:85-107 | emits the call's event only when connected |
| SocketContext.SocketProvider.MarkNotificationAsRead | client/src/contexts/SocketContext.js:109-117 | the list becomes MarkAsRead of it |
| SocketContext.SocketProvider.ClearNotifications | client/src/contexts/SocketContext.js:119-121 | the list becomes empty |
| ExchangeDetails.MergeIdempotent | client/src/pages/ExchangeDetails.js:68-74 | delivering a message twice equals delivering it once |
| ExchangeDetails.MergeAllKeeps | client/src/pages/ExchangeDetails.js:64-76 | over any stream, ids stay distinct, the old list stays in front, and any added message belongs to the page's exchange |
| ExchangeDetails.SendTwiceStoresBoth | client/src/pages/ExchangeDetails.js:104-131 | after the route saves a message, the socket save stores it again under a different id; a reload lists both copies and the broadcast copy is merged beside the route's copy |
| ExchangeDetails.OtherUser | client/src/pages/ExchangeDetails.js:147 | the counterpart party of the viewer (the provider when the viewer is the requester) |
| ExchangeDetails.CanRate | client/src/pages/ExchangeDetails.js:185 | only a party may rate, and the one it rates is the provider |
| ExchangeDetails.CanRateMatchesRateRoute | client/src/pages/ExchangeDetails.js:185 | when `canRate` holds, rating the other user with a score in [1, 5] passes the rate route; otherwise the route refuses every rating from the viewer |
| ExchangeDetails.Buttons | client/src/pages/ExchangeDetails.js:231-275 | Accept and Decline iff Pending and the viewer is the provider; Start iff Accepted; Complete iff In Progress; Rate iff `canRate` |
| ExchangeDetails.ButtonsMoveForward | client/src/pages/ExchangeDetails.js:231-266 | each status button moves the exchange one step along Pending, Accepted, In Progress, Completed, or from Pending to Cancelled |
| ExchangeDetails.ButtonPressSucceeds | client/src/pages/ExchangeDetails.js:136-139 | a shown status button pressed by a party is accepted by the status route and sets the status it names |
| ExchangeDetails.DeclineButtonSettlesLikeDeclineRoute | client/src/pages/ExchangeDetails.js:241-247 | Decline goes through the status route, yet it gives the same reply, balances and ledger as the decline route |
| ExchangeDetails.StatusColor | client/src/pages/ExchangeDetails.js:167-182 | `default` exactly for texts that are not status names |
| ExchangeDetails.StatusColorDistinct | client/src/pages/ExchangeDetails.js:167-182 | different statuses get different colours |
| ExchangeDetails.Page.OnNewMessage | client/src/pages/ExchangeDetails.js:64-76 | a message of another exchange or with a listed id leaves the list; any other is appended at the end; the exchange is kept |
| ExchangeDetails.Page.OnLoaded | client/src/pages/ExchangeDetails.js:89-102 | the exchange and message cells take the fetched detail |
| ExchangeDetails.Page.OnStatusChanged | client/src/pages/ExchangeDetails.js:136-143 | the local status changes only after the route succeeds |
| Dashboard.FilterTab | client/src/pages/Dashboard.js:114-127 | keeps exactly the exchanges the tab admits: Pending for 1, Accepted or In Progress for 2, Completed for 3, all otherwise |
| Dashboard.FilterTabMultiplicity | client/src/pages/Dashboard.js:114-127 | each admitted exchange is kept as often as the input holds it, every other one not at all |
| Dashboard.FilterIsSubsequence | client/src/pages/Dashboard.js:114 | the filtered list is an order-preserving subsequence of the input |
| Dashboard.AllTabKeepsEverything | client/src/pages/Dashboard.js:115-125 | tab 0 and any unknown tab give back the whole list |
| Dashboard.TabsPartition | client/src/pages/Dashboard.js:118-123 | tabs 1, 2 and 3 together show each non-cancelled exchange exactly once |
| Dashboard.UnreadMessages | client/src/pages/Dashboard.js:144 | the unread-messages stat is at most the number of unread notifications, which is at most the list length |
| Dashboard.UnreadMessagesAfterMark | client/src/pages/Dashboard.js:144 | the stat never rises when a notification is marked read |
| Dashboard.Stats | client/src/pages/Dashboard.js:129-162 | four cards when the user offers skills, else three; the first is the number of exchanges, the last the unread-message count |
| Dashboard.RatingCardPlacement | client/src/pages/Dashboard.js:151-162 | the rating card appears iff the user offers skills, and then third; the three base cards always appear |
| Users.MyTransactions | backend/routes/users.js:32-52 | page 1 and limit 50 by default; the window at offset `(page-1)*limit` of the caller's entries; total is their count; pages is `ceil(total/limit)`; no entries gives an empty list with total 0 |
| Users.PageCount | backend/routes/users.js:49 | no number for limit 0; for a positive limit the least page count covering the total; for a negative limit the value `Math.ceil` gives, the least `v` with `v * limit <= total` |
| Users.Window | backend/routes/users.js:38 | `LIMIT`/`OFFSET` semantics: how many rows, and which |
| Users.EveryEntryOnSomePage | backend/routes/users.js:35-49 | each entry is shown on the page whose offset range holds it, and that page is among those counted |
| Users.PageOfEntry | backend/routes/users.js:36 | every entry index lies in the offset range of page `floor(i/limit)+1` |
| Users.ProfileAverage | backend/routes/users.js:127-129 | 0 with no ratings, otherwise the mean score |
| Users.ProfileAverageRange | backend/routes/users.js:127-129 | with scores in [1, 5] the average is 0 or lies in [1, 5] |
| Users.GetProfile | backend/routes/users.js:105-148 | 404 for an unknown user; the average of the received scores is written back only when it differs; the reply carries every stored field but the password, with the average, and exactly the user's offered skills, wanted skills and received ratings |
| Users.SecondReadWritesNothing | backend/routes/users.js:132-135 | a second profile read writes nothing |
| Users.RatedProfileNeedsNoWrite | backend/routes/users.js:132-135 | after a rating, a record holding the rate route's stored average needs no write-back |
| Users.Stripped | backend/routes/users.js:175-180 | the body without exactly the six protected fields |
| Users.StripProtected | backend/routes/users.js:175-180 | the six deletes give Stripped of the body |
| Users.UpdateProfile | backend/routes/users.js:160-198 | 403 unless the actor updates their own id, 404 for an unknown user; protected fields keep their values; other body fields are written; no other user changes; the reply has no password |
| Users.UpdatesKeepProtected | backend/routes/users.js:175-182 | over any number of updates a protected field keeps its value |
| Users.AddSkill | backend/routes/users.js:210-288 | 403 unless the actor adds to their own profile, then 400 without skill id or level; the rate defaults to 0 |
| Users.AddedSkillShown | backend/routes/users.js:210-243 | an accepted skill is listed under its kind by the user's next profile read |

## Left out

- JWT authentication middleware. The actor id is an input of every route.
- The `Database` model and the notification service are not part of this model.
  - The store, the ledger and the inbox stand in for them.
  - Row order follows insertion. The notification list and the transaction history are taken to be newest first.
  - Each exchange's messages are listed oldest first.
  - The exchange list of my-exchanges comes in id order, and only its membership is stated.
  - `updateUser` is assumed to overwrite the given fields.
- Notification wording and socket push delivery. Notices record only their kind, recipient and exchange.
- Interleaving between the `await`s of a handler. Each handler is one atomic step.
- Thrown database errors and their 500 replies. The exception is a requester with no record at create time, which is modelled as `Internal`.
- Server setup, static serving and error handlers (`backend/server.js:1-141`, `200-273`). Migrations and seeding are also left out.
- The socket `disconnect` handler. It only logs, and the socket library's own removal of a closed session from its rooms is not modelled.
- Relay.SocketServer.OnSendMessage: whether the database save succeeds is a parameter.
- Exchanges.MessageStep: the reply is the stored row without the `senderName` and `senderPicture` the route adds from the sender's record, because user records are not part of the exchange store.
- Users.GetProfile: a stored field named `skillsOffered`, `skillsWanted` or `ratings` is not shown, since the reply's lists replace it; the lists keep table order.
- Rendering, date formatting and `toFixed`. The rating card carries the number.
- Floating-point arithmetic. Points, rates, durations and scores are `real`.
- JavaScript value coercions:
  - `parseInt` yielding NaN;
  - string against number comparison of ids in the page's `message.exchangeID === id`;
  - NaN limits.
  Ids and limits are numbers here, and a missing string is the empty string.
- Exchanges.StatusStep: there is no transition table and no at-most-once settlement, because the code has neither.
- Exchanges.RateStep: there is no already-rated check, because the code has none.
- Profile search and the other user routes outside the four named operations.
