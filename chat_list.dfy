/**
 * The conversation list: the signed-in user's messages, newest first, are
 * grouped by conversation partner (Kotlin's `groupBy`, which keeps groups in
 * the order their keys are first met) and each group becomes one summary
 * built from its first, hence latest, message.
 */
module ChatList {
  import opened DataModels
  import Session

  datatype ChatSummary = ChatSummary(username: string, lastMessage: string, time: string)

  /** One `groupBy` bucket: a partner and that partner's messages in input order. */
  datatype Group = Group(partner: string, messages: seq<Message>)

  /** Shown instead of the text of a message that carries no text. */
  const MediaPlaceholder := "Resim/Dosya"

  /** The other side of a message: the receiver when I sent it, otherwise the sender. */
  function PartnerOf(me: string, m: Message): (p: string)
    ensures m.senderUsername == me ==> p == m.receiverUsername
    ensures m.senderUsername != me ==> p == m.senderUsername
  {
    if m.senderUsername == me then m.receiverUsername else m.senderUsername
  }

  /** `take(n)`: the first `min(n, |s|)` characters. */
  function Take(s: string, n: nat): (r: string)
    ensures |r| == if |s| < n then |s| else n
    ensures r == s[..|r|]
  {
    if |s| <= n then s else s[..n]
  }

  /** The summary row of one conversation, built from the message it shows. */
  function SummaryOf(partner: string, last: Message): (c: ChatSummary)
    ensures c.username == partner
    ensures last.content.Some? ==> c.lastMessage == last.content.value
    ensures last.content == None ==> c.lastMessage == MediaPlaceholder
    ensures last.createdAt.Some? ==> c.time == Take(last.createdAt.value, 10)
    ensures last.createdAt == None ==> c.time == ""
  {
    ChatSummary(
      partner,
      if last.content.Some? then last.content.value else MediaPlaceholder,
      if last.createdAt.Some? then Take(last.createdAt.value, 10) else "")
  }

  // ---------------------------------------------------------------------------
  // `groupBy`, as an insertion-ordered map from partner to messages
  // ---------------------------------------------------------------------------

  /** Adds `m` to the group of partner `k`, opening a new group at the end if there is none. */
  function AddToGroups(gs: seq<Group>, k: string, m: Message): (r: seq<Group>)
    ensures |gs| <= |r| <= |gs| + 1
    ensures r != []
  {
    if gs == [] then [Group(k, [m])]
    else if gs[0].partner == k then [Group(k, gs[0].messages + [m])] + gs[1..]
    else [gs[0]] + AddToGroups(gs[1..], k, m)
  }

  /** `msgs.groupBy { PartnerOf(me, it) }`, folding the messages in from the front. */
  function GroupByPartner(me: string, msgs: seq<Message>): (gs: seq<Group>)
    ensures |gs| <= |msgs|
    ensures msgs != [] ==> gs != []
    decreases |msgs|
  {
    if msgs == [] then []
    else
      var last := msgs[|msgs| - 1];
      AddToGroups(GroupByPartner(me, msgs[..|msgs| - 1]), PartnerOf(me, last), last)
  }

  /** `grouped.map { (username, messages) -> summary of messages.first() }`. */
  function SummariesOf(gs: seq<Group>): (r: seq<ChatSummary>)
    requires forall i :: 0 <= i < |gs| ==> gs[i].messages != []
    ensures |r| == |gs|
    ensures forall i :: 0 <= i < |gs| ==> r[i] == SummaryOf(gs[i].partner, gs[i].messages[0])
  {
    if gs == [] then [] else [SummaryOf(gs[0].partner, gs[0].messages[0])] + SummariesOf(gs[1..])
  }

  /** The chat list computed from a fetched, newest-first list of messages. */
  function Summarize(me: string, msgs: seq<Message>): (r: seq<ChatSummary>)
    ensures r == [] <==> msgs == []
  {
    GroupByPartnerSpec(me, msgs);
    SummariesOf(GroupByPartner(me, msgs))
  }

  // ---------------------------------------------------------------------------
  // Reference definitions the grouping is proved against
  // ---------------------------------------------------------------------------

  /** The messages exchanged with partner `k`, in input order. */
  function MessagesWith(me: string, msgs: seq<Message>, k: string): (r: seq<Message>)
    ensures |r| <= |msgs|
    decreases |msgs|
  {
    if msgs == [] then []
    else
      var last := msgs[|msgs| - 1];
      MessagesWith(me, msgs[..|msgs| - 1], k) + (if PartnerOf(me, last) == k then [last] else [])
  }

  /** Does some message of `msgs` have partner `k`? */
  predicate HasPartner(me: string, msgs: seq<Message>, k: string) {
    exists t :: 0 <= t < |msgs| && PartnerOf(me, msgs[t]) == k
  }

  /** The index of the first message with partner `k`, or `|msgs|` when there is none. */
  function FirstWith(me: string, msgs: seq<Message>, k: string): (p: nat)
    ensures p <= |msgs|
    ensures p < |msgs| ==> PartnerOf(me, msgs[p]) == k
    ensures p == |msgs| <==> !HasPartner(me, msgs, k)
    decreases |msgs|
  {
    if msgs == [] then 0
    else
      var init, last := msgs[..|msgs| - 1], msgs[|msgs| - 1];
      var p := FirstWith(me, init, k);
      if p < |init| then
        assert msgs[p] == init[p];
        p
      else if PartnerOf(me, last) == k then
        |init|
      else
        assert !HasPartner(me, msgs, k) by {
          forall t | 0 <= t < |msgs| ensures PartnerOf(me, msgs[t]) != k {
            if t < |init| {
              assert msgs[t] == init[t];
            }
          }
        }
        |msgs|
  }

  /** No message before `FirstWith` is with `k`. */
  lemma {:induction false} FirstWithIsFirst(me: string, msgs: seq<Message>, k: string)
    ensures forall t :: 0 <= t < FirstWith(me, msgs, k) ==> PartnerOf(me, msgs[t]) != k
    decreases |msgs|
  {
    if msgs != [] {
      var init := msgs[..|msgs| - 1];
      FirstWithIsFirst(me, init, k);
      forall t | 0 <= t < FirstWith(me, msgs, k) ensures PartnerOf(me, msgs[t]) != k {
        if t < |init| {
          assert msgs[t] == init[t];
        }
      }
    }
  }

  /** The groups' partners are pairwise distinct. */
  predicate DistinctPartners(gs: seq<Group>) {
    forall i, j :: 0 <= i < j < |gs| ==> gs[i].partner != gs[j].partner
  }

  /** Does some group belong to partner `k`? */
  predicate HasGroup(gs: seq<Group>, k: string) {
    exists i :: 0 <= i < |gs| && gs[i].partner == k
  }

  /** Each group holds exactly its partner's messages. */
  predicate GroupsMatch(me: string, msgs: seq<Message>, gs: seq<Group>) {
    forall i :: 0 <= i < |gs| ==> gs[i].messages == MessagesWith(me, msgs, gs[i].partner)
  }

  /** Each group's partner occurs in the input. */
  predicate GroupsPresent(me: string, msgs: seq<Message>, gs: seq<Group>) {
    forall i :: 0 <= i < |gs| ==> HasPartner(me, msgs, gs[i].partner)
  }

  /** Every message's partner has a group. */
  predicate GroupsCover(me: string, msgs: seq<Message>, gs: seq<Group>) {
    forall t :: 0 <= t < |msgs| ==> HasGroup(gs, PartnerOf(me, msgs[t]))
  }

  /** Groups come in the order their partners first occur. */
  predicate GroupsOrdered(me: string, msgs: seq<Message>, gs: seq<Group>) {
    forall i, j :: 0 <= i < j < |gs| ==>
      FirstWith(me, msgs, gs[i].partner) < FirstWith(me, msgs, gs[j].partner)
  }

  /** What `GroupByPartner` is proved to compute. */
  predicate GroupsOf(me: string, msgs: seq<Message>, gs: seq<Group>) {
    && DistinctPartners(gs)
    && GroupsMatch(me, msgs, gs)
    && GroupsPresent(me, msgs, gs)
    && GroupsCover(me, msgs, gs)
    && GroupsOrdered(me, msgs, gs)
  }

  // ---------------------------------------------------------------------------
  // Proofs
  // ---------------------------------------------------------------------------

  /** Adding to a partner that already has a group extends that group only. */
  lemma {:induction false} AddToExisting(gs: seq<Group>, k: string, m: Message, i: nat)
    requires i < |gs| && gs[i].partner == k
    requires forall j :: 0 <= j < i ==> gs[j].partner != k
    ensures AddToGroups(gs, k, m) == gs[i := Group(k, gs[i].messages + [m])]
  {
    if i > 0 {
      AddToExisting(gs[1..], k, m, i - 1);
    }
  }

  /** Adding to a partner without a group opens a new group at the end. */
  lemma {:induction false} AddToNew(gs: seq<Group>, k: string, m: Message)
    requires forall j :: 0 <= j < |gs| ==> gs[j].partner != k
    ensures AddToGroups(gs, k, m) == gs + [Group(k, [m])]
  {
    if gs != [] {
      AddToNew(gs[1..], k, m);
    }
  }

  /** Extending the input by one message extends each partner's messages by at most that message. */
  lemma MessagesWithSnoc(me: string, msgs: seq<Message>, m: Message, k: string)
    ensures MessagesWith(me, msgs + [m], k) ==
      MessagesWith(me, msgs, k) + (if PartnerOf(me, m) == k then [m] else [])
  {
    assert (msgs + [m])[..|msgs|] == msgs;
  }

  /** A partner has messages exactly when it occurs in the input. */
  lemma {:induction false} MessagesWithNonEmpty(me: string, msgs: seq<Message>, k: string)
    ensures MessagesWith(me, msgs, k) != [] <==> HasPartner(me, msgs, k)
    decreases |msgs|
  {
    if msgs != [] {
      var init, last := msgs[..|msgs| - 1], msgs[|msgs| - 1];
      MessagesWithNonEmpty(me, init, k);
      if HasPartner(me, init, k) {
        var t :| 0 <= t < |init| && PartnerOf(me, init[t]) == k;
        assert msgs[t] == init[t];
      }
      if HasPartner(me, msgs, k) && PartnerOf(me, last) != k {
        var t :| 0 <= t < |msgs| && PartnerOf(me, msgs[t]) == k;
        assert t < |init| && init[t] == msgs[t];
      }
    }
  }

  /** The first message of a partner's group is the input's first message with that partner. */
  lemma {:induction false} MessagesWithHead(me: string, msgs: seq<Message>, k: string)
    requires HasPartner(me, msgs, k)
    ensures MessagesWith(me, msgs, k) != []
    ensures MessagesWith(me, msgs, k)[0] == msgs[FirstWith(me, msgs, k)]
    decreases |msgs|
  {
    MessagesWithNonEmpty(me, msgs, k);
    var init, last := msgs[..|msgs| - 1], msgs[|msgs| - 1];
    assert msgs == init + [last];
    FirstWithSnoc(me, init, last, k);
    if HasPartner(me, init, k) {
      MessagesWithHead(me, init, k);
    } else {
      MessagesWithNonEmpty(me, init, k);
    }
  }

  /** Where the first message with `k` lies after one more message is appended. */
  lemma FirstWithSnoc(me: string, msgs: seq<Message>, m: Message, k: string)
    ensures HasPartner(me, msgs, k) ==> FirstWith(me, msgs + [m], k) == FirstWith(me, msgs, k)
    ensures !HasPartner(me, msgs, k) && PartnerOf(me, m) == k ==> FirstWith(me, msgs + [m], k) == |msgs|
    ensures !HasPartner(me, msgs, k) && PartnerOf(me, m) != k ==> FirstWith(me, msgs + [m], k) == |msgs| + 1
  {
    assert (msgs + [m])[..|msgs|] == msgs;
  }

  /** Appending a message keeps every partner that already occurred. */
  lemma HasPartnerSnoc(me: string, msgs: seq<Message>, m: Message, k: string)
    ensures HasPartner(me, msgs + [m], k) <==> HasPartner(me, msgs, k) || PartnerOf(me, m) == k
  {
    var s := msgs + [m];
    assert forall t :: 0 <= t < |msgs| ==> s[t] == msgs[t];
    assert s[|msgs|] == m;
  }

  /**
   * The shape of one `AddToGroups` step over distinct partners: every old
   * group keeps its place and partner and gains `m` when it is `k`'s; a new
   * group for `k` is opened at the end exactly when `k` had none.
   */
  lemma AddToGroupsShape(gs: seq<Group>, k: string, m: Message)
    requires DistinctPartners(gs)
    ensures var r := AddToGroups(gs, k, m);
      && (forall i :: 0 <= i < |gs| ==> r[i].partner == gs[i].partner)
      && (forall i :: 0 <= i < |gs| ==>
            r[i].messages == gs[i].messages + (if gs[i].partner == k then [m] else []))
      && ((exists i :: 0 <= i < |gs| && gs[i].partner == k) ==> |r| == |gs|)
      && ((forall i :: 0 <= i < |gs| ==> gs[i].partner != k) ==> r == gs + [Group(k, [m])])
  {
    if i :| 0 <= i < |gs| && gs[i].partner == k {
      AddToExisting(gs, k, m, i);
    } else {
      AddToNew(gs, k, m);
    }
  }

  /** One step of the fold keeps each group's messages right. */
  lemma StepKeepsMatch(me: string, msgs: seq<Message>, gs: seq<Group>, m: Message)
    requires DistinctPartners(gs) && GroupsMatch(me, msgs, gs) && GroupsCover(me, msgs, gs)
    ensures GroupsMatch(me, msgs + [m], AddToGroups(gs, PartnerOf(me, m), m))
  {
    var k := PartnerOf(me, m);
    var r := AddToGroups(gs, k, m);
    AddToGroupsShape(gs, k, m);
    forall i | 0 <= i < |r| ensures r[i].messages == MessagesWith(me, msgs + [m], r[i].partner) {
      MessagesWithSnoc(me, msgs, m, r[i].partner);
      if i >= |gs| {
        NoGroupNoPartner(me, msgs, gs, k);
        MessagesWithNonEmpty(me, msgs, k);
      }
    }
  }

  /** One step of the fold keeps every group's partner present. */
  lemma StepKeepsPresent(me: string, msgs: seq<Message>, gs: seq<Group>, m: Message)
    requires DistinctPartners(gs) && GroupsPresent(me, msgs, gs)
    ensures GroupsPresent(me, msgs + [m], AddToGroups(gs, PartnerOf(me, m), m))
  {
    var k := PartnerOf(me, m);
    var r := AddToGroups(gs, k, m);
    AddToGroupsShape(gs, k, m);
    forall i | 0 <= i < |r| ensures HasPartner(me, msgs + [m], r[i].partner) {
      HasPartnerSnoc(me, msgs, m, r[i].partner);
    }
  }

  /** Under coverage, a partner without a group does not occur in the input. */
  lemma NoGroupNoPartner(me: string, msgs: seq<Message>, gs: seq<Group>, k: string)
    requires GroupsCover(me, msgs, gs)
    requires !HasGroup(gs, k)
    ensures !HasPartner(me, msgs, k)
  {
    forall t | 0 <= t < |msgs| ensures PartnerOf(me, msgs[t]) != k {
      assert HasGroup(gs, PartnerOf(me, msgs[t]));
    }
  }

  /** One step of the fold keeps the partners distinct. */
  lemma StepKeepsDistinct(gs: seq<Group>, k: string, m: Message)
    requires DistinctPartners(gs)
    ensures DistinctPartners(AddToGroups(gs, k, m))
  {
    AddToGroupsShape(gs, k, m);
  }

  /** One step of the fold keeps every message's partner covered. */
  lemma StepKeepsCoverage(me: string, msgs: seq<Message>, gs: seq<Group>, m: Message)
    requires DistinctPartners(gs) && GroupsCover(me, msgs, gs)
    ensures GroupsCover(me, msgs + [m], AddToGroups(gs, PartnerOf(me, m), m))
  {
    var k, s := PartnerOf(me, m), msgs + [m];
    var r := AddToGroups(gs, k, m);
    AddToGroupsShape(gs, k, m);
    forall t | 0 <= t < |s| ensures HasGroup(r, PartnerOf(me, s[t])) {
      if t < |msgs| {
        assert s[t] == msgs[t];
        assert HasGroup(gs, PartnerOf(me, msgs[t]));
        var j :| 0 <= j < |gs| && gs[j].partner == PartnerOf(me, msgs[t]);
        assert r[j].partner == gs[j].partner;
      } else if HasGroup(gs, k) {
        var i :| 0 <= i < |gs| && gs[i].partner == k;
        assert r[i].partner == k;
      } else {
        assert r[|gs|].partner == k;
      }
    }
  }

  /** Appending a message moves no partner's first occurrence that was already there. */
  lemma OldGroupsKeepFirst(me: string, msgs: seq<Message>, gs: seq<Group>, m: Message)
    requires forall i :: 0 <= i < |gs| ==> HasPartner(me, msgs, gs[i].partner)
    ensures forall i :: 0 <= i < |gs| ==>
      FirstWith(me, msgs + [m], gs[i].partner) == FirstWith(me, msgs, gs[i].partner) < |msgs|
  {
    forall i | 0 <= i < |gs|
      ensures FirstWith(me, msgs + [m], gs[i].partner) == FirstWith(me, msgs, gs[i].partner) < |msgs|
    {
      FirstWithSnoc(me, msgs, m, gs[i].partner);
    }
  }

  /**
   * The order argument of one fold step, given how the step moved the
   * groups and their first occurrences: old groups keep their place and
   * their first occurrence (all inside `msgs`), and a new group can only
   * be last, first occurring at the appended message.
   */
  lemma OrderAfterStep(me: string, msgs: seq<Message>, m: Message, gs: seq<Group>, r: seq<Group>)
    requires GroupsOrdered(me, msgs, gs)
    requires |gs| <= |r| <= |gs| + 1
    requires forall i :: 0 <= i < |gs| ==> r[i].partner == gs[i].partner
    requires forall i :: 0 <= i < |gs| ==>
      FirstWith(me, msgs + [m], gs[i].partner) == FirstWith(me, msgs, gs[i].partner) < |msgs|
    requires |r| > |gs| ==> FirstWith(me, msgs + [m], r[|gs|].partner) == |msgs|
    ensures GroupsOrdered(me, msgs + [m], r)
  {
    var s := msgs + [m];
    forall i, j | 0 <= i < j < |r|
      ensures FirstWith(me, s, r[i].partner) < FirstWith(me, s, r[j].partner)
    {
      assert r[i].partner == gs[i].partner;
      assert FirstWith(me, s, r[i].partner) == FirstWith(me, msgs, gs[i].partner) < |msgs|;
      if j < |gs| {
        assert r[j].partner == gs[j].partner;
        assert FirstWith(me, s, r[j].partner) == FirstWith(me, msgs, gs[j].partner);
        assert FirstWith(me, msgs, gs[i].partner) < FirstWith(me, msgs, gs[j].partner);
      } else {
        assert j == |gs|;
      }
    }
  }

  /** One step of the fold keeps the groups in first-occurrence order. */
  lemma StepKeepsOrder(me: string, msgs: seq<Message>, gs: seq<Group>, m: Message)
    requires DistinctPartners(gs) && GroupsPresent(me, msgs, gs) && GroupsCover(me, msgs, gs)
    requires GroupsOrdered(me, msgs, gs)
    ensures GroupsOrdered(me, msgs + [m], AddToGroups(gs, PartnerOf(me, m), m))
  {
    var k := PartnerOf(me, m);
    var r := AddToGroups(gs, k, m);
    AddToGroupsShape(gs, k, m);
    OldGroupsKeepFirst(me, msgs, gs, m);
    if |r| > |gs| {
      NoGroupNoPartner(me, msgs, gs, k);
      FirstWithSnoc(me, msgs, m, k);
    }
    OrderAfterStep(me, msgs, m, gs, r);
  }

  /** One step of the fold keeps `GroupsOf`. */
  lemma StepKeepsGroups(me: string, msgs: seq<Message>, gs: seq<Group>, m: Message)
    requires GroupsOf(me, msgs, gs)
    ensures GroupsOf(me, msgs + [m], AddToGroups(gs, PartnerOf(me, m), m))
  {
    StepKeepsDistinct(gs, PartnerOf(me, m), m);
    StepKeepsMatch(me, msgs, gs, m);
    StepKeepsPresent(me, msgs, gs, m);
    StepKeepsCoverage(me, msgs, gs, m);
    StepKeepsOrder(me, msgs, gs, m);
  }

  /** `GroupByPartner` meets its reference definition. */
  lemma {:induction false} GroupByPartnerSpec(me: string, msgs: seq<Message>)
    ensures GroupsOf(me, msgs, GroupByPartner(me, msgs))
    ensures forall i :: 0 <= i < |GroupByPartner(me, msgs)| ==> GroupByPartner(me, msgs)[i].messages != []
    decreases |msgs|
  {
    var gs := GroupByPartner(me, msgs);
    if msgs != [] {
      var init, last := msgs[..|msgs| - 1], msgs[|msgs| - 1];
      assert msgs == init + [last];
      GroupByPartnerSpec(me, init);
      StepKeepsGroups(me, init, GroupByPartner(me, init), last);
    }
    forall i | 0 <= i < |gs| ensures gs[i].messages != [] {
      MessagesWithNonEmpty(me, msgs, gs[i].partner);
    }
  }

  // ---------------------------------------------------------------------------
  // What the chat list promises
  // ---------------------------------------------------------------------------

  /** No partner appears in two summaries. */
  lemma SummariesUnique(me: string, msgs: seq<Message>)
    ensures var r := Summarize(me, msgs);
      forall i, j :: 0 <= i < j < |r| ==> r[i].username != r[j].username
  {
    GroupByPartnerSpec(me, msgs);
  }

  /** A partner has a summary exactly when some message of the input is with that partner. */
  lemma SummariesCoverPartners(me: string, msgs: seq<Message>, k: string)
    ensures var r := Summarize(me, msgs);
      (exists i :: 0 <= i < |r| && r[i].username == k) <==> HasPartner(me, msgs, k)
  {
    GroupByPartnerSpec(me, msgs);
    var gs := GroupByPartner(me, msgs);
    if HasPartner(me, msgs, k) {
      var t :| 0 <= t < |msgs| && PartnerOf(me, msgs[t]) == k;
      var i :| 0 <= i < |gs| && gs[i].partner == PartnerOf(me, msgs[t]);
      assert Summarize(me, msgs)[i].username == k;
    }
  }

  /** The usernames a chat list shows. */
  function Usernames(r: seq<ChatSummary>): set<string> {
    set c | c in r :: c.username
  }

  /** The conversation partners of a list of messages. */
  function Partners(me: string, msgs: seq<Message>): set<string> {
    set m | m in msgs :: PartnerOf(me, m)
  }

  /** The set of summary usernames is the set of partners in the input. */
  lemma SummaryUsernamesArePartners(me: string, msgs: seq<Message>)
    ensures Usernames(Summarize(me, msgs)) == Partners(me, msgs)
  {
    var r := Summarize(me, msgs);
    forall k | k in Usernames(r) ensures k in Partners(me, msgs) {
      var c :| c in r && c.username == k;
      var i :| 0 <= i < |r| && r[i] == c;
      SummariesCoverPartners(me, msgs, k);
      var t :| 0 <= t < |msgs| && PartnerOf(me, msgs[t]) == k;
      assert msgs[t] in msgs;
    }
    forall k | k in Partners(me, msgs) ensures k in Usernames(r) {
      var m :| m in msgs && PartnerOf(me, m) == k;
      var t :| 0 <= t < |msgs| && msgs[t] == m;
      SummariesCoverPartners(me, msgs, k);
      var i :| 0 <= i < |r| && r[i].username == k;
      assert r[i] in r;
    }
  }

  /** Summaries come in the order their partners first occur in the input. */
  lemma SummariesInFirstOccurrenceOrder(me: string, msgs: seq<Message>)
    ensures var r := Summarize(me, msgs);
      forall i, j :: 0 <= i < j < |r| ==>
        FirstWith(me, msgs, r[i].username) < FirstWith(me, msgs, r[j].username)
  {
    GroupByPartnerSpec(me, msgs);
  }

  /** Each summary is built from the input's first message with its partner. */
  lemma SummaryFromFirstMessage(me: string, msgs: seq<Message>, i: nat)
    requires i < |Summarize(me, msgs)|
    ensures var r, k := Summarize(me, msgs), Summarize(me, msgs)[i].username;
      && FirstWith(me, msgs, k) < |msgs|
      && r[i] == SummaryOf(k, msgs[FirstWith(me, msgs, k)])
  {
    GroupByPartnerSpec(me, msgs);
    var gs := GroupByPartner(me, msgs);
    MessagesWithHead(me, msgs, gs[i].partner);
  }

  /**
   * With the input ordered newest first (`stamps[t]` is the server's ordering
   * key of message `t`, non-increasing), every summary shows the newest
   * message with its partner.
   */
  lemma SummaryShowsLatest(me: string, msgs: seq<Message>, stamps: seq<int>, i: nat, t: nat)
    requires |stamps| == |msgs|
    requires forall a, b :: 0 <= a <= b < |stamps| ==> stamps[a] >= stamps[b]
    requires i < |Summarize(me, msgs)|
    requires t < |msgs| && PartnerOf(me, msgs[t]) == Summarize(me, msgs)[i].username
    ensures var p := FirstWith(me, msgs, Summarize(me, msgs)[i].username);
      p <= t && stamps[p] >= stamps[t]
  {
    SummaryFromFirstMessage(me, msgs, i);
    FirstWithIsFirst(me, msgs, Summarize(me, msgs)[i].username);
  }

  // ---------------------------------------------------------------------------
  // The screen state
  // ---------------------------------------------------------------------------

  /** The chat-list screen: the rows it shows and whether its one fetch is still running. */
  class ChatListScreen {
    const me: string
    var chatList: seq<ChatSummary>
    var isLoading: bool

    /** `email` is the signed-in user's address, if there is one. */
    constructor (email: Option<string>)
      ensures me == Session.CurrentUsername(email) && chatList == [] && isLoading
    {
      me := Session.CurrentUsername(email);
      chatList := [];
      isLoading := true;
    }

    /**
     * The screen's launch effect. `fetched` is the server's newest-first list
     * of messages I sent or received, or None when the fetch threw; a failure
     * keeps the previous rows, and loading ends either way.
     */
    method Load(fetched: Option<seq<Message>>)
      modifies this
      ensures !isLoading
      ensures fetched.Some? ==> chatList == Summarize(me, fetched.value)
      ensures fetched == None ==> chatList == old(chatList)
      ensures fetched.Some? ==> (ShowsEmptyHint() <==> fetched.value == [])
    {
      if fetched.Some? {
        chatList := Summarize(me, fetched.value);
      }
      isLoading := false;
    }

    /** The "no messages yet" hint is shown once loading ended with no rows. */
    predicate ShowsEmptyHint()
      reads this
    {
      !isLoading && chatList == []
    }
  }
}
