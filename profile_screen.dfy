/**
 * The signed-in user's own profile: loading (or creating) the profile row,
 * the user's posts and the friendship requests waiting for an answer, and
 * the actions on them. Every remote call is an input: a fetched list, or
 * whether the write returned normally. A call that throws ends its handler,
 * so nothing after it happens.
 */
module ProfileScreen {
  import opened DataModels
  import Lists
  import Session

  /** `myPosts.filter { it.id != id }`. */
  function WithoutPost(posts: seq<Post>, id: int): (r: seq<Post>)
    ensures forall p :: p in r <==> p in posts && p.id != id
    ensures |r| <= |posts|
  {
    Lists.FilterMembers(posts, (p: Post) => p.id != id);
    Lists.Filter(posts, (p: Post) => p.id != id)
  }

  /** Deleting removes only the posts with that id, each other post as often as it was there. */
  lemma WithoutPostKeepsOthers(posts: seq<Post>, id: int, p: Post)
    ensures multiset(WithoutPost(posts, id))[p] == if p.id == id then 0 else multiset(posts)[p]
  {
    Lists.FilterMultiplicity(posts, (p: Post) => p.id != id, p);
  }

  /** Deleting keeps the remaining posts in their order: it acts on each part of a split list separately. */
  lemma WithoutPostKeepsOrder(a: seq<Post>, b: seq<Post>, id: int)
    ensures WithoutPost(a + b, id) == WithoutPost(a, id) + WithoutPost(b, id)
  {
    Lists.FilterAppend(a, b, (p: Post) => p.id != id);
  }

  /** `pendingRequests.filter { it.id != id }`. */
  function WithoutRequest(requests: seq<Friendship>, id: int): (r: seq<Friendship>)
    ensures forall f :: f in r <==> f in requests && f.id != id
    ensures |r| <= |requests|
  {
    Lists.FilterMembers(requests, (f: Friendship) => f.id != id);
    Lists.Filter(requests, (f: Friendship) => f.id != id)
  }

  /** Answering removes exactly the answered request id and keeps every other request. */
  lemma WithoutRequestKeepsOthers(requests: seq<Friendship>, id: int, f: Friendship)
    ensures multiset(WithoutRequest(requests, id))[f] == if f.id == id then 0 else multiset(requests)[f]
  {
    Lists.FilterMultiplicity(requests, (f: Friendship) => f.id != id, f);
  }

  /** The two buttons of a request row. */
  datatype Answer = Accept | Reject

  /** The status an answer writes into the request's row. */
  function StatusWritten(a: Answer): (s: string)
    ensures IsWrittenStatus(s)
    ensures a == Accept <==> s == Accepted
    ensures a == Reject <==> s == Rejected
  {
    assert Accepted[0] != Rejected[0];
    match a
    case Accept => Accepted
    case Reject => Rejected
  }

  /** The edit dialog's save: only the name, the bio and the privacy flag change; no profile stays no profile. */
  function Edited(profile: Option<Profile>, name: string, bio: string, isPrivate: bool): (r: Option<Profile>)
    ensures r.Some? <==> profile.Some?
    ensures r.Some? ==> r.value.fullName == Some(name) && r.value.bio == Some(bio) && r.value.isPrivate == isPrivate
    ensures r.Some? ==>
      r.value.(fullName := None, bio := None, isPrivate := false) == profile.value.(fullName := None, bio := None, isPrivate := false)
  {
    if profile.Some? then Some(profile.value.(fullName := Some(name), bio := Some(bio), isPrivate := isPrivate)) else None
  }

  /** The avatar update: only the picture's address changes; no profile stays no profile. */
  function WithAvatar(profile: Option<Profile>, url: string): (r: Option<Profile>)
    ensures r.Some? <==> profile.Some?
    ensures r.Some? ==> r.value.avatarUrl == Some(url)
    ensures r.Some? ==> r.value.(avatarUrl := None) == profile.value.(avatarUrl := None)
  {
    if profile.Some? then Some(profile.value.(avatarUrl := Some(url))) else None
  }

  /** The bold name line: the profile's full name, else the username. */
  function DisplayName(profile: Option<Profile>, username: string): (s: string)
    ensures profile.Some? && profile.value.fullName.Some? ==> s == profile.value.fullName.value
    ensures !(profile.Some? && profile.value.fullName.Some?) ==> s == username
  {
    if profile.Some? && profile.value.fullName.Some? then profile.value.fullName.value else username
  }

  /** The request badge: hidden without requests, otherwise their number. */
  function RequestBadge(requests: seq<Friendship>): (b: Option<nat>)
    ensures b == None <==> requests == []
    ensures b.Some? ==> b.value == |requests| && b.value >= 1
  {
    if requests == [] then None else Some(|requests|)
  }

  /** What the profile screen shows, apart from the loading flag. */
  datatype ProfileView = ProfileView(profile: Option<Profile>, myPosts: seq<Post>, pendingRequests: seq<Friendship>)

  /** Did the load get past its profile step: the query completed, and so did the insert it may need? */
  predicate ProfileStepDone(userId: string, profileRows: Option<seq<Profile>>, insertOk: bool) {
    profileRows.Some? && !(profileRows.value == [] && userId != "" && !insertOk)
  }

  /**
   * `loadProfileData`, step by step. `profileRows` is the profile query's
   * result (None: it threw); with no row and a known user id a fresh
   * profile is inserted (`insertOk`: the insert returned) and shown; then
   * the user's posts and the pending requests are fetched. The first call
   * that throws ends the load, keeping whatever was already assigned: each
   * shown part is either kept or replaced by what its own query returned.
   */
  function AfterLoad(v: ProfileView, userId: string, username: string,
                     profileRows: Option<seq<Profile>>, insertOk: bool,
                     postRows: Option<seq<Post>>, requestRows: Option<seq<Friendship>>): (r: ProfileView)
    ensures r.profile == v.profile || (profileRows.Some? && profileRows.value != [] && r.profile == Some(profileRows.value[0]))
      || (profileRows == Some([]) && userId != "" && insertOk && r.profile == Some(NewProfile(userId, username)))
    ensures r.myPosts == v.myPosts || (ProfileStepDone(userId, profileRows, insertOk) && postRows.Some? && r.myPosts == postRows.value)
    ensures r.pendingRequests == v.pendingRequests
      || (ProfileStepDone(userId, profileRows, insertOk) && postRows.Some? && requestRows.Some?
          && r.pendingRequests == requestRows.value)
  {
    match profileRows
    case None => v
    case Some(rows) =>
      if rows == [] && userId != "" && !insertOk then v
      else
        var withProfile :=
          if rows != [] then v.(profile := Some(rows[0]))
          else if userId != "" then v.(profile := Some(NewProfile(userId, username)))
          else v;
        match postRows
        case None => withProfile
        case Some(posts) =>
          var withPosts := withProfile.(myPosts := posts);
          if requestRows.Some? then withPosts.(pendingRequests := requestRows.value) else withPosts
  }

  /** An existing profile row is what the screen shows. */
  lemma LoadShowsExistingProfile(v: ProfileView, userId: string, username: string, rows: seq<Profile>,
                                 insertOk: bool, postRows: Option<seq<Post>>, requestRows: Option<seq<Friendship>>)
    requires rows != []
    ensures AfterLoad(v, userId, username, Some(rows), insertOk, postRows, requestRows).profile == Some(rows[0])
  {
  }

  /**
   * Without a row, a known user gets a fresh profile with the declared
   * defaults once the insert returns; an unknown user keeps the old profile.
   */
  lemma LoadCreatesMissingProfile(v: ProfileView, userId: string, username: string,
                                  postRows: Option<seq<Post>>, requestRows: Option<seq<Friendship>>)
    ensures var p := AfterLoad(v, userId, username, Some([]), true, postRows, requestRows).profile;
      && (userId != "" ==> p == Some(NewProfile(userId, username)))
      && (userId == "" ==> p == v.profile)
  {
  }

  /**
   * A failed profile query, or a failed insert of the missing profile, ends
   * the load with nothing changed; the posts and the requests are replaced
   * only by completed fetches, and only in order, so a failed requests query
   * keeps the posts just fetched and the old requests.
   */
  lemma LoadStopsAtFirstFailure(v: ProfileView, userId: string, username: string,
                                profileRows: Option<seq<Profile>>, insertOk: bool,
                                postRows: Option<seq<Post>>, requestRows: Option<seq<Friendship>>)
    ensures var r := AfterLoad(v, userId, username, profileRows, insertOk, postRows, requestRows);
      && (profileRows == None ==> r == v)
      && (profileRows == Some([]) && userId != "" && !insertOk ==> r == v)
      && (ProfileStepDone(userId, profileRows, insertOk) && postRows.Some? && requestRows == None ==>
            r.myPosts == postRows.value && r.pendingRequests == v.pendingRequests)
      && (r.myPosts != v.myPosts ==> postRows.Some? && r.myPosts == postRows.value)
      && (r.pendingRequests != v.pendingRequests ==>
            postRows.Some? && requestRows.Some? && r.pendingRequests == requestRows.value)
      && (postRows.Some? && requestRows.Some? && profileRows.Some?
          && !(profileRows.value == [] && userId != "" && !insertOk) ==>
            r.myPosts == postRows.value && r.pendingRequests == requestRows.value)
  {
  }

  /** The profile screen's state. */
  class ProfileScreen {
    const username: string
    const userId: string
    var profile: Option<Profile>
    var myPosts: seq<Post>
    var pendingRequests: seq<Friendship>
    var isLoading: bool

    /** `email` and `id` are the signed-in user's, if there is one. */
    constructor (email: Option<string>, id: Option<string>)
      ensures username == Session.CurrentUsername(email) && userId == Session.CurrentUserId(id)
      ensures profile == None && myPosts == [] && pendingRequests == [] && isLoading
    {
      username := Session.CurrentUsername(email);
      userId := Session.CurrentUserId(id);
      profile := None;
      myPosts := [];
      pendingRequests := [];
      isLoading := true;
    }

    function View(): ProfileView
      reads this
    {
      ProfileView(profile, myPosts, pendingRequests)
    }

    /** The request badge over the bell. */
    function Badge(): (b: Option<nat>)
      reads this
      ensures b == RequestBadge(pendingRequests)
    {
      RequestBadge(pendingRequests)
    }

    /** The posts counter shows how many posts the grid holds. */
    function PostCount(): (n: nat)
      reads this
      ensures n == |myPosts|
    {
      |myPosts|
    }

    /**
     * `loadProfileData`, run at launch and on pull-to-refresh. Returns the
     * profile handed to the insert, if one was. Loading ends whether or not
     * some call threw.
     */
    method LoadProfileData(profileRows: Option<seq<Profile>>, insertOk: bool,
                           postRows: Option<seq<Post>>, requestRows: Option<seq<Friendship>>)
      returns (inserted: Option<Profile>)
      modifies this
      ensures !isLoading
      ensures View() == AfterLoad(old(View()), userId, username, profileRows, insertOk, postRows, requestRows)
      ensures inserted.Some? <==> profileRows == Some([]) && userId != ""
      ensures inserted.Some? ==> inserted.value == NewProfile(userId, username)
    {
      isLoading := true;
      inserted := None;
      if profileRows.Some? {
        var rows := profileRows.value;
        var proceed := true;
        if rows != [] {
          profile := Some(rows[0]);
        } else if userId != "" {
          var created := NewProfile(userId, username);
          inserted := Some(created);
          if insertOk {
            profile := Some(created);
          } else {
            proceed := false;
          }
        }
        if proceed && postRows.Some? {
          myPosts := postRows.value;
          if requestRows.Some? {
            pendingRequests := requestRows.value;
          }
        }
      }
      isLoading := false;
    }

    /** A long press on a post: deleted remotely, then removed from the grid once the delete returned. */
    method DeletePost(id: int, deleteOk: bool)
      modifies this`myPosts
      ensures myPosts == if deleteOk then WithoutPost(old(myPosts), id) else old(myPosts)
    {
      if deleteOk {
        myPosts := WithoutPost(myPosts, id);
      }
    }

    /**
     * A request's accept or reject button: the answer's status is written to
     * the request's row (`written`), and once that returned the request
     * leaves the pending list.
     */
    method AnswerRequest(request: Friendship, answer: Answer, updateOk: bool) returns (written: string)
      modifies this`pendingRequests
      ensures written == StatusWritten(answer)
      ensures pendingRequests == if updateOk then WithoutRequest(old(pendingRequests), request.id) else old(pendingRequests)
    {
      written := StatusWritten(answer);
      if updateOk {
        pendingRequests := WithoutRequest(pendingRequests, request.id);
      }
    }

    /** The edit dialog's save button, after the remote update. */
    method SaveEdit(name: string, bio: string, isPrivate: bool, updateOk: bool)
      modifies this`profile
      ensures profile == if updateOk then Edited(old(profile), name, bio, isPrivate) else old(profile)
    {
      if updateOk {
        profile := Edited(profile, name, bio, isPrivate);
      }
    }

    /**
     * A picked avatar: `url` is the uploaded file's public address; `ok`
     * says the read, upload and profile update all returned normally.
     */
    method UpdateAvatar(url: string, ok: bool)
      modifies this`profile
      ensures profile == if ok then WithAvatar(old(profile), url) else old(profile)
    {
      if ok {
        profile := WithAvatar(profile, url);
      }
    }
  }
}
