/**
 * The records the app exchanges with its backend, with the default values
 * their Kotlin data classes declare. Kotlin's nullable `String?` and `Long?`
 * become `Option`; a `Long` identifier becomes an unbounded `int` (identifiers
 * are only compared); the `Int` like counter keeps its 32-bit width because
 * the feed increments it.
 */
module DataModels {

  datatype Option<+T> = None | Some(value: T)

  /** Kotlin's `Int`: a 32-bit two's-complement integer. */
  newtype Int32 = x: int | -0x8000_0000 <= x < 0x8000_0000

  const Int32Max: Int32 := 0x7fff_ffff
  const Int32Min: Int32 := -0x8000_0000

  /** Kotlin's `x + 1` on an `Int`: wraps from the largest value to the smallest. */
  function WrappingInc(x: Int32): (r: Int32)
    ensures x < Int32Max ==> r as int == x as int + 1
    ensures x == Int32Max ==> r == Int32Min
    ensures (r as int - x as int - 1) % 0x1_0000_0000 == 0
  {
    if x == Int32Max then Int32Min else x + 1
  }

  /** The message permission a fresh profile carries. */
  const Everyone := "everyone"
  const FriendsOnly := "friends"

  datatype Profile = Profile(
    id: string,
    username: string,
    fullName: Option<string>,
    bio: Option<string>,
    avatarUrl: Option<string>,
    isPrivate: bool,
    messagePermission: string,
    showStatus: bool,
    allowNotifications: bool)

  datatype Post = Post(
    id: int,
    username: string,
    description: string,
    imageUrl: Option<string>,
    isAiGenerated: bool,
    likeCount: Int32)

  /** `status` is free text; the app writes only the three FriendshipStatus values. */
  datatype Friendship = Friendship(
    id: int,
    senderUsername: string,
    receiverUsername: string,
    status: string)

  datatype Comment = Comment(
    id: int,
    postId: int,
    username: string,
    content: string)

  datatype Story = Story(
    id: int,
    username: string,
    imageUrl: string)

  datatype Message = Message(
    id: int,
    senderUsername: string,
    receiverUsername: string,
    content: Option<string>,
    postId: Option<int>,
    createdAt: Option<string>)

  const Pending := "pending"
  const Accepted := "accepted"
  const Rejected := "rejected"

  /** The friendship statuses the app ever writes. */
  predicate IsWrittenStatus(s: string) {
    s == Pending || s == Accepted || s == Rejected
  }

  /** `Profile(id = …, username = …)`: every other field takes its declared default. */
  function NewProfile(id: string, username: string): (p: Profile)
    ensures p.id == id && p.username == username
    ensures p.fullName == None && p.bio == None && p.avatarUrl == None
    ensures !p.isPrivate && p.messagePermission == Everyone
    ensures p.showStatus && p.allowNotifications
  {
    Profile(id, username, None, None, None, false, Everyone, true, true)
  }

  /** `Profile()`: the all-defaults profile a decoder falls back to. */
  function DefaultProfile(): (p: Profile)
    ensures p.id == "" && p.username == ""
    ensures p == NewProfile("", "")
  {
    NewProfile("", "")
  }

  /** A post built locally, before the server assigns `id` and counts likes. */
  function NewPost(username: string, description: string, imageUrl: Option<string>, isAiGenerated: bool): (p: Post)
    ensures p.id == 0 && p.likeCount == 0
    ensures p.username == username && p.description == description
    ensures p.imageUrl == imageUrl && p.isAiGenerated == isAiGenerated
  {
    Post(0, username, description, imageUrl, isAiGenerated, 0)
  }

  function NewFriendship(sender: string, receiver: string, status: string): (f: Friendship)
    ensures f.id == 0
    ensures f.senderUsername == sender && f.receiverUsername == receiver && f.status == status
  {
    Friendship(0, sender, receiver, status)
  }

  function NewComment(postId: int, username: string, content: string): (c: Comment)
    ensures c.id == 0
    ensures c.postId == postId && c.username == username && c.content == content
  {
    Comment(0, postId, username, content)
  }

  function NewStory(username: string, imageUrl: string): (s: Story)
    ensures s.id == 0
    ensures s.username == username && s.imageUrl == imageUrl
  {
    Story(0, username, imageUrl)
  }

  /** A message built locally: no id yet, no shared post, no server timestamp. */
  function NewMessage(sender: string, receiver: string, content: Option<string>): (m: Message)
    ensures m.id == 0 && m.postId == None && m.createdAt == None
    ensures m.senderUsername == sender && m.receiverUsername == receiver && m.content == content
  {
    Message(0, sender, receiver, content, None, None)
  }
}
