# AI Social — the local rules of the screens, in Dafny

AI Social is a Jetpack Compose social app on a hosted Supabase backend. Almost
all of it renders UI or calls the backend. This project models what is left:
the rules that decide what each screen holds after a fetch, a click or an
incoming realtime event. These are:

- the entity records and their default values (`DataModels`);
- the username every screen derives from the signed-in e-mail address (`Session`);
- the conversation list, which groups the user's messages by partner and shows one
  summary per partner built from the latest message (`ChatList`);
- the open conversation's membership test, realtime append and send button (`ChatScreen`);
- the "how long ago" text of a timestamp (`DateUtils`);
- the home feed's load, like button, heart icon and comment sheet (`HomeScreen`);
- the own-profile screen's load-or-create, post deletion, friendship answers, edit
  and avatar update (`ProfileScreen`);
- the settings screen's load and its partial save through default arguments (`SettingsScreen`).

Every remote call becomes an input. A query is an `Option<seq<T>>`: `None` means
the call threw. A write is a `bool`: whether it returned normally. When a call
throws, the rest of its handler does not run. Where the handler has a `finally`,
only that still runs. Each handler is one atomic step on the screen's state.
A screen whose state Kotlin keeps in `remember`ed variables is a `class`. Its
handlers are methods with `modifies` clauses. The list operations they use are
functions, and lemmas prove what the screen promises about those functions.

Kotlin `Long` ids and timestamps are unbounded `int`s. `Post.like_count` is a
Kotlin `Int`, so it is the 32-bit newtype `Int32`, and its `+ 1` wraps around
explicitly. Kotlin's `Long` division truncates toward zero; `DateUtils.TruncDiv`
writes that out.

Files: `data_models.dfy`, `lists.dfy`, `session.dfy`, `chat_list.dfy`,
`chat_screen.dfy`, `date_utils.dfy`, `home_screen.dfy`, `profile_screen.dfy`,
`settings_screen.dfy`.

## Model

| member | source | states |
|---|---|---|
| DataModels.WrappingInc | app/src/main/java/com/bozgeyik/aisocialapp/ui/screens/HomeScreen.kt:152 | a 32-bit `like_count + 1`: one more below the maximum, the minimum at the maximum, always congruent to x + 1 modulo 2^32 |
| DataModels.NewProfile | app/src/main/java/com/bozgeyik/aisocialapp/data/DataModels.kt:6-17 | a profile built from an id and a username has no full name, bio or avatar, is public, accepts messages from everyone, shows its status and allows notifications |
| DataModels.DefaultProfile | app/src/main/java/com/bozgeyik/aisocialapp/data/DataModels.kt:6-17 | the all-defaults profile has empty id and username and is the id/username profile for two empty strings |
| DataModels.NewPost | app/src/main/java/com/bozgeyik/aisocialapp/data/DataModels.kt:20-27 | a post built without id and like count has id 0 and like count 0 and keeps the given fields, the image address possibly null |
| DataModels.NewFriendship | app/src/main/java/com/bozgeyik/aisocialapp/data/DataModels.kt:30-35 | a locally built friendship has id 0 and the given users and status |
| DataModels.NewComment | app/src/main/java/com/bozgeyik/aisocialapp/data/DataModels.kt:38-43 | a locally built comment has id 0 and the given post, author and text |
| DataModels.NewStory | app/src/main/java/com/bozgeyik/aisocialapp/data/DataModels.kt:46-50 | a locally built story has id 0 and the given author and image |
| DataModels.NewMessage | app/src/main/java/com/bozgeyik/aisocialapp/data/DataModels.kt:53-60 | a locally built message has id 0, no post and no creation time, and the given sender, receiver and (nullable) content |
| Lists.Filter | app/src/main/java/com/bozgeyik/aisocialapp/ui/screens/ProfileScreen.kt:373 | `filter` never grows the list |
| Lists.FilterMembers | app/src/main/java/com/bozgeyik/aisocialapp/ui/screens/ProfileScreen.kt:373 | `filter` keeps exactly the elements that pass the test |
| Lists.FilterAppend | app/src/main/java/com/bozgeyik/aisocialapp/ui/screens/ProfileScreen.kt:373 | filtering a concatenation is the concatenation of the filtered parts, so the kept elements stay in order |
| Lists.FilterMultiplicity | app/src/main/java/com/bozgeyik/aisocialapp/ui/screens/ProfileScreen.kt:373 | each kept value occurs as often as before and each dropped value not at all |
| Lists.FilterKeepsAll | app/src/main/java/com/bozgeyik/aisocialapp/ui/screens/ProfileScreen.kt:373 | when every element passes, the list is returned unchanged |
| Session.EmailPrefix | app/src/main/java/com/bozgeyik/aisocialapp/ui/screens/ProfileScreen.kt:117 | `split("@")[0]` is a prefix of the address with no '@', followed in the address by an '@' or by nothing |
| Session.EmailPrefixWithoutAt | app/src/main/java/com/bozgeyik/aisocialapp/ui/screens/ProfileScreen.kt:117 | an address without '@' is its own username |
| Session.EmailPrefixOfAddress | app/src/main/java/com/bozgeyik/aisocialapp/ui/screens/ProfileScreen.kt:117 | `user@domain` yields `user` whenever `user` has no '@', whatever the domain holds |
| Session.CurrentUsername | app/src/main/java/com/bozgeyik/aisocialapp/ui/screens/ProfileScreen.kt:114-117 | the username is "" without a signed-in e-mail, otherwise the e-mail's prefix before the first '@' |
| Session.CommentAuthor | app/src/main/java/com/bozgeyik/aisocialapp/ui/screens/HomeScreen.kt:459-460 | the comment author is "Anonim" without an e-mail, otherwise the e-mail's prefix |
| Session.CurrentUserId | app/src/main/java/com/bozgeyik/aisocialapp/ui/screens/ProfileScreen.kt:116 | the user id is "" without a signed-in user, otherwise that user's id |
| ChatList.PartnerOf | app/src/main/java/com/bozgeyik/aisocialapp/ui/screens/ChatListScreen.kt:52-54 | a message's partner is its receiver when I sent it, otherwise its sender |
| ChatList.Take | app/src/main/java/com/bozgeyik/aisocialapp/ui/screens/ChatListScreen.kt:62 | `take(n)` is the prefix of length min(n, length) |
| ChatList.AddToGroups | app/src/main/java/com/bozgeyik/aisocialapp/ui/screens/ChatListScreen.kt:52-54 | adding one message to the buckets adds at most one bucket and leaves at least one |
| ChatList.GroupByPartner | app/src/main/java/com/bozgeyik/aisocialapp/ui/screens/ChatListScreen.kt:52-54 | `groupBy` makes at most one bucket per message and at least one for a non-empty list (its full meaning is `GroupByPartnerSpec`) |
| ChatList.SummaryOf | app/src/main/java/com/bozgeyik/aisocialapp/ui/screens/ChatListScreen.kt:59-63 | a summary carries the partner, the message text or "Resim/Dosya" when it has none, and the first 10 characters of the creation time or "" when it has none |
| ChatList.SummariesOf | app/src/main/java/com/bozgeyik/aisocialapp/ui/screens/ChatListScreen.kt:57-64 | one summary per group, in group order, each built from the group's first message |
| ChatList.Summarize | app/src/main/java/com/bozgeyik/aisocialapp/ui/screens/ChatListScreen.kt:52-64 | the chat list is empty exactly when no message was fetched |
| ChatList.FirstWith | app/src/main/java/com/bozgeyik/aisocialapp/ui/screens/ChatListScreen.kt:58 | a position in the list holding a message with the partner, or the length exactly when the partner never occurs |
| ChatList.FirstWithIsFirst | app/src/main/java/com/bozgeyik/aisocialapp/ui/screens/ChatListScreen.kt:58 | no message before that position is with the partner, so it is the first occurrence |
| ChatList.GroupByPartnerSpec | app/src/main/java/com/bozgeyik/aisocialapp/ui/screens/ChatListScreen.kt:52-54 | `groupBy` yields one non-empty group per partner present, with distinct partners, each holding exactly that partner's messages in input order, the groups ordered by first occurrence |
| ChatList.SummariesUnique | app/src/main/java/com/bozgeyik/aisocialapp/ui/screens/ChatListScreen.kt:52-64 | no partner appears in two summaries |
| ChatList.SummariesCoverPartners | app/src/main/java/com/bozgeyik/aisocialapp/ui/screens/ChatListScreen.kt:52-64 | a user has a summary if and only if some fetched message is with that user |
| ChatList.SummaryUsernamesArePartners | app/src/main/java/com/bozgeyik/aisocialapp/ui/screens/ChatListScreen.kt:52-64 | the set of summary usernames equals the set of partners of the fetched messages |
| ChatList.SummariesInFirstOccurrenceOrder | app/src/main/java/com/bozgeyik/aisocialapp/ui/screens/ChatListScreen.kt:52-57 | summaries appear in the order their partners first occur in the fetched list |
| ChatList.SummaryFromFirstMessage | app/src/main/java/com/bozgeyik/aisocialapp/ui/screens/ChatListScreen.kt:57-63 | each summary is built from the fetched list's first message with its partner |
| ChatList.SummaryShowsLatest | app/src/main/java/com/bozgeyik/aisocialapp/ui/screens/ChatListScreen.kt:48-58 | with the fetched list ordered newest first, a summary shows a message at least as new as every other message with its partner |
| ChatList.ChatListScreen.constructor | app/src/main/java/com/bozgeyik/aisocialapp/ui/screens/ChatListScreen.kt:31-35 | the screen's username is the e-mail's prefix ("" without one), and it starts with no rows and loading |
| ChatList.ChatListScreen.Load | app/src/main/java/com/bozgeyik/aisocialapp/ui/screens/ChatListScreen.kt:38-73 | a completed fetch shows the summaries of the fetched messages, and the "no messages yet" hint exactly when none was fetched; a failed one keeps the previous rows; loading ends either way |
| ChatList.ChatListScreen.ShowsEmptyHint | app/src/main/java/com/bozgeyik/aisocialapp/ui/screens/ChatListScreen.kt:80-85 | the hint is shown once loading has ended with no rows (its meaning after a load is in `Load`'s contract) |
| ChatScreen.InConversation | app/src/main/java/com/bozgeyik/aisocialapp/ui/screens/ChatScreen.kt:84-85 | a message belongs to the conversation exactly when its sender and receiver are, as a set, the two users |
| ChatScreen.ConversationSymmetric | app/src/main/java/com/bozgeyik/aisocialapp/ui/screens/ChatScreen.kt:84-85 | the membership test treats both directions alike: swapping the two users gives the same answer |
| ChatScreen.IsMine | app/src/main/java/com/bozgeyik/aisocialapp/ui/screens/ChatScreen.kt:130 | a bubble is drawn as mine when I am its sender (related to the conversation by `NotMineIsIncoming`) |
| ChatScreen.NotMineIsIncoming | app/src/main/java/com/bozgeyik/aisocialapp/ui/screens/ChatScreen.kt:130 | in a conversation, a bubble not drawn as mine was sent by the other user to me, and mine went to the other user |
| ChatScreen.ConversationOf | app/src/main/java/com/bozgeyik/aisocialapp/ui/screens/ChatScreen.kt:51-65 | the initial query returns exactly the rows passing between the two users, never more rows than the table has |
| ChatScreen.Deliver | app/src/main/java/com/bozgeyik/aisocialapp/ui/screens/ChatScreen.kt:84-88 | an insert in the conversation is appended at the end, every earlier message unchanged; any other insert changes nothing |
| ChatScreen.DeliverAll | app/src/main/java/com/bozgeyik/aisocialapp/ui/screens/ChatScreen.kt:80-94 | a run of inserts only appends, at most one message per insert, keeping the earlier list as a prefix |
| ChatScreen.DeliverAllAppendsConversation | app/src/main/java/com/bozgeyik/aisocialapp/ui/screens/ChatScreen.kt:80-94 | after any run of inserts the list is the earlier list followed by exactly the conversation's inserts in arrival order |
| ChatScreen.RepeatedDeliveryGrows | app/src/main/java/com/bozgeyik/aisocialapp/ui/screens/ChatScreen.kt:88 | the same record delivered n times appears n more times: nothing is de-duplicated |
| ChatScreen.ChatScreen.constructor | app/src/main/java/com/bozgeyik/aisocialapp/ui/screens/ChatScreen.kt:40-46 | the screen's username is the e-mail's prefix ("" without one); the conversation starts with no messages, an empty draft and no subscription |
| ChatScreen.ChatScreen.LoadInitial | app/src/main/java/com/bozgeyik/aisocialapp/ui/screens/ChatScreen.kt:51-67 | a completed query replaces the messages wholesale with the conversation's rows and then subscribes; a failed one changes nothing and does not subscribe |
| ChatScreen.ChatScreen.OnInsert | app/src/main/java/com/bozgeyik/aisocialapp/ui/screens/ChatScreen.kt:80-93 | once subscribed, the realtime handler's new list is the delivery of the record |
| ChatScreen.ChatScreen.EditDraft | app/src/main/java/com/bozgeyik/aisocialapp/ui/screens/ChatScreen.kt:145 | typing replaces the draft |
| ChatScreen.ChatScreen.Send | app/src/main/java/com/bozgeyik/aisocialapp/ui/screens/ChatScreen.kt:160-172 | an empty draft sends nothing; otherwise a message from me to the other user with the draft as text is inserted; the shown list is never touched; the draft is cleared only when the insert returned |
| DateUtils.TruncDiv | app/src/main/java/com/bozgeyik/aisocialapp/utils/DateUtils.kt:19-22 | `Long` division truncates toward zero: the quotient has the dividend's sign and the remainder `a - q*b` has the dividend's sign and is smaller than the divisor in magnitude |
| DateUtils.TimeAgoOf | app/src/main/java/com/bozgeyik/aisocialapp/utils/DateUtils.kt:8-30 | null or unparseable text, and only that, gives the blank text; the minutes shown lie in 1..59, hours in 1..23, days in 1..6; the date form shows the parsed instant |
| DateUtils.ShownValues | app/src/main/java/com/bozgeyik/aisocialapp/utils/DateUtils.kt:19-28 | for a past instant the shown number is the difference divided by the bucket's unit (a minute, an hour, a day) |
| DateUtils.BucketIntervals | app/src/main/java/com/bozgeyik/aisocialapp/utils/DateUtils.kt:24-30 | each bucket is an interval of the millisecond difference: under a minute (every future instant included), minutes, hours, days, then a week or more |
| DateUtils.BucketMonotone | app/src/main/java/com/bozgeyik/aisocialapp/utils/DateUtils.kt:19-30 | an older instant never selects an earlier bucket |
| DateUtils.ShownValueMonotone | app/src/main/java/com/bozgeyik/aisocialapp/utils/DateUtils.kt:19-28 | within a bucket an older instant never shows a smaller number |
| DateUtils.Decimal | app/src/main/java/com/bozgeyik/aisocialapp/utils/DateUtils.kt:26-28 | a number in a string template is a non-empty run of decimal digits, without a leading zero, that denotes exactly that number (`DigitsValue`) |
| DateUtils.Signed | app/src/main/java/com/bozgeyik/aisocialapp/utils/DateUtils.kt:26-28 | a negative number prints as a minus sign before the digits of its magnitude, any other as its digits |
| DateUtils.Render | app/src/main/java/com/bozgeyik/aisocialapp/utils/DateUtils.kt:24-30 | the blank bucket renders as "", the first as "Az önce", the others as the number followed by " dk önce", " sa önce" or " gün önce", the date bucket as the formatted day and month |
| DateUtils.ShownText | app/src/main/java/com/bozgeyik/aisocialapp/utils/DateUtils.kt:19-28 | for a past instant the minutes, hours or days text is the whole number of elapsed units followed by its suffix |
| DateUtils.BlankOnlyWithoutTimestamp | app/src/main/java/com/bozgeyik/aisocialapp/utils/DateUtils.kt:8-33 | the text is empty exactly when there was no parseable timestamp (given a non-empty date text) |
| HomeScreen.WithLikeCount | app/src/main/java/com/bozgeyik/aisocialapp/ui/screens/HomeScreen.kt:153 | setting a post's count keeps the list's length and order, changes only posts with that id, and changes only their count |
| HomeScreen.WithLikeCountKeepsIds | app/src/main/java/com/bozgeyik/aisocialapp/ui/screens/HomeScreen.kt:153 | every post keeps its id and every field but the count |
| HomeScreen.WithLikeCountLastWins | app/src/main/java/com/bozgeyik/aisocialapp/ui/screens/HomeScreen.kt:153 | of two counts written for one post the later one wins |
| HomeScreen.TwoClicksAddTwo | app/src/main/java/com/bozgeyik/aisocialapp/ui/screens/HomeScreen.kt:150-153 | two clicks on one card add two to its count: the second click ("unlike") increments too |
| HomeScreen.PostCard.constructor | app/src/main/java/com/bozgeyik/aisocialapp/ui/screens/HomeScreen.kt:282 | a card's heart starts not liked |
| HomeScreen.HomeScreen.constructor | app/src/main/java/com/bozgeyik/aisocialapp/ui/screens/HomeScreen.kt:61-63 | the feed starts with no posts, no stories and loading |
| HomeScreen.HomeScreen.Load | app/src/main/java/com/bozgeyik/aisocialapp/ui/screens/HomeScreen.kt:76-93 | fetched posts are shown even when the stories query then fails; stories are replaced only when both queries completed; loading ends either way, with the empty-feed text exactly when the shown posts are empty |
| HomeScreen.HomeScreen.ShowsEmptyFeed | app/src/main/java/com/bozgeyik/aisocialapp/ui/screens/HomeScreen.kt:140 | "no posts yet" is shown once loading has ended with no posts (after a load it holds exactly when the posts query returned none, and a like never changes it) |
| HomeScreen.HomeScreen.OnLikeClick | app/src/main/java/com/bozgeyik/aisocialapp/ui/screens/HomeScreen.kt:150-158 | the clicked card's count plus one (32-bit) is written into every post with its id, before and whatever the remote update does; whether the empty-feed text shows is unchanged |
| HomeScreen.HomeScreen.OnHeartClick | app/src/main/java/com/bozgeyik/aisocialapp/ui/screens/HomeScreen.kt:350-353 | a heart click flips the card's icon and runs the like callback |
| HomeScreen.CommentsSection.constructor | app/src/main/java/com/bozgeyik/aisocialapp/ui/screens/HomeScreen.kt:400-402 | a comment sheet starts for its post with no comments and an empty draft |
| HomeScreen.CommentsSection.Load | app/src/main/java/com/bozgeyik/aisocialapp/ui/screens/HomeScreen.kt:406-412 | a completed query replaces the comments; a failed one keeps them |
| HomeScreen.CommentsSection.EditDraft | app/src/main/java/com/bozgeyik/aisocialapp/ui/screens/HomeScreen.kt:451 | typing replaces the draft |
| HomeScreen.CommentsSection.Send | app/src/main/java/com/bozgeyik/aisocialapp/ui/screens/HomeScreen.kt:456-467 | an empty draft sends nothing; otherwise a comment by the e-mail's prefix (or "Anonim") is inserted, and once the insert returned it is put first and the draft cleared |
| ProfileScreen.WithoutPost | app/src/main/java/com/bozgeyik/aisocialapp/ui/screens/ProfileScreen.kt:373 | deleting keeps exactly the posts with another id |
| ProfileScreen.WithoutPostKeepsOthers | app/src/main/java/com/bozgeyik/aisocialapp/ui/screens/ProfileScreen.kt:373 | deleting removes every copy of the posts with that id and keeps every other post as often as it was there |
| ProfileScreen.WithoutPostKeepsOrder | app/src/main/java/com/bozgeyik/aisocialapp/ui/screens/ProfileScreen.kt:373 | deleting acts on each part of a split list separately, so the remaining posts keep their order |
| ProfileScreen.WithoutRequest | app/src/main/java/com/bozgeyik/aisocialapp/ui/screens/ProfileScreen.kt:506 | answering keeps exactly the requests with another id |
| ProfileScreen.WithoutRequestKeepsOthers | app/src/main/java/com/bozgeyik/aisocialapp/ui/screens/ProfileScreen.kt:517 | answering removes the answered id and keeps every other request as often as it was there |
| ProfileScreen.StatusWritten | app/src/main/java/com/bozgeyik/aisocialapp/ui/screens/ProfileScreen.kt:502-504 | accepting writes "accepted" and rejecting "rejected", both statuses the app writes |
| ProfileScreen.Edited | app/src/main/java/com/bozgeyik/aisocialapp/ui/screens/ProfileScreen.kt:469 | an edit sets the full name, bio and privacy, changes no other field, and leaves a missing profile missing |
| ProfileScreen.WithAvatar | app/src/main/java/com/bozgeyik/aisocialapp/ui/screens/ProfileScreen.kt:143 | an avatar update sets only the avatar address and leaves a missing profile missing |
| ProfileScreen.DisplayName | app/src/main/java/com/bozgeyik/aisocialapp/ui/screens/ProfileScreen.kt:315 | the name line shows the profile's full name, else the username |
| ProfileScreen.RequestBadge | app/src/main/java/com/bozgeyik/aisocialapp/ui/screens/ProfileScreen.kt:223-224 | the badge is hidden exactly when there is no pending request and otherwise shows their number |
| ProfileScreen.AfterLoad | app/src/main/java/com/bozgeyik/aisocialapp/ui/screens/ProfileScreen.kt:154-198 | each shown part is either kept or replaced by its own query's result: the profile by the first row, or by a fresh default profile once its insert returned; the posts and requests only once the profile step completed, and the requests only after the posts |
| ProfileScreen.LoadShowsExistingProfile | app/src/main/java/com/bozgeyik/aisocialapp/ui/screens/ProfileScreen.kt:163-164 | an existing profile row is what the screen shows after the load |
| ProfileScreen.LoadCreatesMissingProfile | app/src/main/java/com/bozgeyik/aisocialapp/ui/screens/ProfileScreen.kt:165-175 | without a row, a known user gets exactly the default profile built from its id and username once the insert returned; an unknown user keeps the old profile |
| ProfileScreen.LoadStopsAtFirstFailure | app/src/main/java/com/bozgeyik/aisocialapp/ui/screens/ProfileScreen.kt:156-197 | a failed profile query, or a failed insert of the missing profile, changes nothing; posts and requests change only to completed fetches and requests only after posts; a failed requests query keeps the new posts and the old requests; when every call completes both are replaced |
| ProfileScreen.ProfileScreen.constructor | app/src/main/java/com/bozgeyik/aisocialapp/ui/screens/ProfileScreen.kt:102-117 | the screen starts with the derived username and id, no profile, no posts, no requests, loading |
| ProfileScreen.ProfileScreen.Badge | app/src/main/java/com/bozgeyik/aisocialapp/ui/screens/ProfileScreen.kt:223-224 | the bell's badge is the request badge of the pending requests |
| ProfileScreen.ProfileScreen.PostCount | app/src/main/java/com/bozgeyik/aisocialapp/ui/screens/ProfileScreen.kt:306 | the posts counter is the number of the user's posts |
| ProfileScreen.ProfileScreen.LoadProfileData | app/src/main/java/com/bozgeyik/aisocialapp/ui/screens/ProfileScreen.kt:154-198 | the load ends not loading with the view the step-by-step load gives; a default profile is handed to the insert exactly when no row exists and the user id is known |
| ProfileScreen.ProfileScreen.DeletePost | app/src/main/java/com/bozgeyik/aisocialapp/ui/screens/ProfileScreen.kt:367-375 | once the delete returned the post's id leaves the grid; otherwise nothing changes |
| ProfileScreen.ProfileScreen.AnswerRequest | app/src/main/java/com/bozgeyik/aisocialapp/ui/screens/ProfileScreen.kt:500-519 | the answer's status is written and, once that returned, the request leaves the pending list |
| ProfileScreen.ProfileScreen.SaveEdit | app/src/main/java/com/bozgeyik/aisocialapp/ui/screens/ProfileScreen.kt:459-470 | once the update returned the shown profile is the edited one; otherwise it is unchanged |
| ProfileScreen.ProfileScreen.UpdateAvatar | app/src/main/java/com/bozgeyik/aisocialapp/ui/screens/ProfileScreen.kt:120-148 | once the upload and update returned the shown profile has the new avatar; otherwise it is unchanged |
| SettingsScreen.SettingsOf | app/src/main/java/com/bozgeyik/aisocialapp/ui/screens/SettingsScreen.kt:52-55 | the settings read from a profile row are its privacy, message permission and notification flag |
| SettingsScreen.Resolve | app/src/main/java/com/bozgeyik/aisocialapp/ui/screens/SettingsScreen.kt:61-65 | each given argument is written; each omitted one defaults to the value currently shown |
| SettingsScreen.ResolveWithoutArguments | app/src/main/java/com/bozgeyik/aisocialapp/ui/screens/SettingsScreen.kt:61-65 | a save with no argument writes exactly what is shown |
| SettingsScreen.ResolveCurrentIsIdentity | app/src/main/java/com/bozgeyik/aisocialapp/ui/screens/SettingsScreen.kt:61-79 | saving the values already shown leaves them unchanged |
| SettingsScreen.ResolveIdempotent | app/src/main/java/com/bozgeyik/aisocialapp/ui/screens/SettingsScreen.kt:61-79 | saving the same arguments twice changes nothing more than saving once |
| SettingsScreen.ArgumentsOf | app/src/main/java/com/bozgeyik/aisocialapp/ui/screens/SettingsScreen.kt:120-153 | each control passes exactly its own argument, and the radio buttons pass only "everyone" or "friends" |
| SettingsScreen.Saved | app/src/main/java/com/bozgeyik/aisocialapp/ui/screens/SettingsScreen.kt:120-153 | a control's save changes its own setting to the value it stands for and keeps the other two |
| SettingsScreen.SavedPermission | app/src/main/java/com/bozgeyik/aisocialapp/ui/screens/SettingsScreen.kt:134-140 | a control's save keeps an offered permission offered, and any permission it changes becomes "everyone" or "friends" |
| SettingsScreen.SavedAll | app/src/main/java/com/bozgeyik/aisocialapp/ui/screens/SettingsScreen.kt:120-153 | after a run of control saves, a setting no control of the run touches keeps its value |
| SettingsScreen.SavedAllKeepsOfferedPermission | app/src/main/java/com/bozgeyik/aisocialapp/ui/screens/SettingsScreen.kt:120-153 | any run of control saves keeps an offered permission offered |
| SettingsScreen.SettingsScreen.constructor | app/src/main/java/com/bozgeyik/aisocialapp/ui/screens/SettingsScreen.kt:36-43 | the screen starts public, open to everyone's messages, with notifications, loading |
| SettingsScreen.SettingsScreen.Load | app/src/main/java/com/bozgeyik/aisocialapp/ui/screens/SettingsScreen.kt:46-58 | a completed query shows the first row's settings, or keeps the current ones without a row, and ends loading; a failed one changes nothing |
| SettingsScreen.SettingsScreen.SaveSettings | app/src/main/java/com/bozgeyik/aisocialapp/ui/screens/SettingsScreen.kt:61-86 | the update sends the resolved settings, which are shown once it returned; a failed update leaves all three settings unchanged |
| SettingsScreen.SettingsScreen.OnControl | app/src/main/java/com/bozgeyik/aisocialapp/ui/screens/SettingsScreen.kt:115-153 | a control saves what it stands for, and keeps an offered permission offered |

## Left out

- Supabase itself: every query, insert, update, delete, storage upload and public address, realtime subscription and auth call. They are foreign library calls; each is an input (the fetched list, or whether the call returned).
- The server-side filters and orderings of the queries. The fetched lists are taken as given. `ChatList.SummaryShowsLatest` takes the server's ordering as an explicit non-increasing list of keys. `ChatScreen.ConversationOf` applies the conversation filter the initial query asks the server for.
- Compose rendering, layout, scrolling, toasts, dialogs and sheets being shown or hidden, the story viewer, the share intent, logout and navigation. These are UI.
- Coroutine interleavings and the realtime flow's timing. Each handler is one atomic step, so a handler that reads state after a suspension reads the state it started with.
- An exception that nothing catches ends its coroutine and, on Android, the app. The model stops the handler at that point and keeps the state as it was. `SettingsScreen.SettingsScreen.Load` with a failed query therefore keeps the spinner. The chat screen's initial load, the comment sheet's load and both sends behave the same way, as do the profile screen's post deletion (`ProfileScreen.ProfileScreen.DeletePost`), friendship answers (`ProfileScreen.ProfileScreen.AnswerRequest`) and edit (`ProfileScreen.ProfileScreen.SaveEdit`), and the like's remote update, whose failure comes after the new count is shown.
- Parsing the ISO-8601 text, reading the clock and formatting the Turkish day and month. `DateUtils.TimeAgoOf` takes the parse result and the current time in milliseconds. `DateUtils.Render` takes the formatted day and month.
- DateUtils.TimeAgoOf: the 64-bit overflow of `now - date.time` is not modelled, because both are realistic epoch milliseconds.
- The like's remote update: its outcome is a parameter of `HomeScreen.HomeScreen.OnLikeClick` that no state depends on, since nothing is rolled back.
- The `media_type` field the profile grid reads. It is not part of the `Post` record this model follows, and it only picks a thumbnail.
- The profile screen's pull-to-refresh delay, and the bio line being hidden when empty. These are UI.
- The screens outside this model: post and story creation, search, notifications, login, signup, splash, the Firebase feed and the navigation shell. Their logic is remote I/O.
