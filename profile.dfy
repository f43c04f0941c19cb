/**
 * The friendship controls of another user's profile
 * (src/screens/user/ProfileScreen.js). The screen keeps a local view of the
 * relation between the current user `me` and the profile's user: `isFriend`,
 * the request status and the profile user's friend count. The status is named
 * from the profile user's side: `Received` means the profile user has received
 * `me`'s request, `Sent` means the profile user has sent one to `me`.
 */
module ProfileScreen {
  import opened Wrappers
  import opened SocialGraph
  import FriendRequest

  datatype RequestStatus = Sent | Received

  datatype View = View(isFriend: bool, friendRequest: Option<RequestStatus>, friendCount: int)

  /** `checkIfFriend`, then `checkIfRequestReceived`, then `checkIfRequestSent`, each only when the previous found nothing. */
  function Resolve(g: Graph, me: UserId, other: UserId, v: View): View {
    if other in Members(g.friends, me) then v.(isFriend := true)
    else if me in Members(g.requests, other) then v.(friendRequest := Some(Received))
    else if other in Members(g.requests, me) then v.(friendRequest := Some(Sent))
    else v
  }

  /** `addFriend()`: accepts the profile user's request when the status is `Sent`, otherwise sends one. */
  function AddFriendStep(v: View, g: Graph, me: UserId, other: UserId): (View, Graph) {
    if v.friendRequest == Some(Sent) then
      (View(true, None, v.friendCount + 1), FriendRequest.Accepted(g, me, other))
    else
      (v.(friendRequest := Some(Received)), Graph(g.friends, Insert(g.requests, other, me)))
  }

  /** `unsendRequest()` */
  function UnsendStep(v: View, g: Graph, me: UserId, other: UserId): (View, Graph) {
    (v.(friendRequest := None), Graph(g.friends, Remove(g.requests, other, me)))
  }

  /** `removeFriend()` */
  function RemoveFriendStep(v: View, g: Graph, me: UserId, other: UserId): (View, Graph) {
    (v.(isFriend := false, friendCount := v.friendCount - 1), Graph(Unfriend(g.friends, me, other), g.requests))
  }

  datatype Button = UnsendButton | AddButton | MessageButton

  /** `ConnectOption`: the button next to the counters. */
  function ConnectOption(v: View): (b: Button)
    ensures b == UnsendButton <==> v.friendRequest == Some(Received)
    ensures b == AddButton <==> v.friendRequest != Some(Received) && (!v.isFriend || v.friendRequest == Some(Sent))
    ensures b == MessageButton <==> v.isFriend && v.friendRequest == None
  {
    if v.friendRequest == Some(Received) then UnsendButton
    else if !v.isFriend || v.friendRequest == Some(Sent) then AddButton
    else
      StatusCases(v.friendRequest);
      MessageButton
  }

  lemma StatusCases(status: Option<RequestStatus>)
    ensures status == None || status == Some(Sent) || status == Some(Received)
  {
    match status
    case None =>
    case Some(s) =>
      match s
      case Sent =>
      case Received =>
  }

  /** The view agrees with the backend, in the order the checks are made. */
  ghost predicate Reflects(v: View, g: Graph, me: UserId, other: UserId) {
    && (v.isFriend <==> other in Members(g.friends, me))
    && (v.friendRequest == Some(Received) <==> !v.isFriend && me in Members(g.requests, other))
    && (v.friendRequest == Some(Sent) <==> !v.isFriend && me !in Members(g.requests, other) && other in Members(g.requests, me))
  }

  /** The counter shows the profile user's number of friends. */
  ghost predicate CountTracks(v: View, g: Graph, other: UserId) {
    v.friendCount == |Members(g.friends, other)|
  }

  /**
   * The backend states the screen's handlers produce between the two users:
   * friendship is mutual, the two never have requests to each other at once,
   * and friends have no request pending between them.
   */
  ghost predicate Tidy(g: Graph, me: UserId, other: UserId) {
    && Symmetric(g.friends)
    && !(me in Members(g.requests, other) && other in Members(g.requests, me))
    && (other in Members(g.friends, me) ==> me !in Members(g.requests, other) && other !in Members(g.requests, me))
  }

  /** Resolving from a view with `isFriend` false and no status yields a view that reflects the backend. */
  lemma ResolveReflects(g: Graph, me: UserId, other: UserId, friendCount: int)
    ensures Reflects(Resolve(g, me, other, View(false, None, friendCount)), g, me, other)
    ensures Resolve(g, me, other, View(false, None, friendCount)).friendCount == friendCount
  {
  }

  /**
   * The screen starts from `isFriend` as the route parameter `friend` says,
   * and the lookups only ever set it. Resolving from a seed reflects the
   * backend exactly when a seeded `true` is really a friend: a stale `true`
   * for a user who is no friend survives.
   */
  lemma ResolveReflectsIff(g: Graph, me: UserId, other: UserId, friend: bool, friendCount: int)
    ensures Reflects(Resolve(g, me, other, View(friend, None, friendCount)), g, me, other)
      <==> (friend ==> other in Members(g.friends, me))
    ensures friend && other !in Members(g.friends, me) ==> Resolve(g, me, other, View(friend, None, friendCount)).isFriend
  {
    if !friend {
      ResolveReflects(g, me, other, friendCount);
    }
  }

  /** A request of `me` to the profile user is shown as `Received` even when one also goes the other way. */
  lemma ResolvePrefersReceived(g: Graph, me: UserId, other: UserId, v: View)
    requires other !in Members(g.friends, me) && me in Members(g.requests, other)
    ensures Resolve(g, me, other, v).friendRequest == Some(Received)
  {
  }

  /**
   * Pressing the add button keeps the view in step with a tidy backend: it
   * accepts a `Sent` request (the users become friends and the count goes up
   * by one) or sends a new request.
   */
  lemma AddKeepsInStep(v: View, g: Graph, me: UserId, other: UserId)
    requires me != other && Reflects(v, g, me, other) && Tidy(g, me, other) && CountTracks(v, g, other)
    requires ConnectOption(v) == AddButton
    ensures var (v', g') := AddFriendStep(v, g, me, other);
      && Reflects(v', g', me, other) && Tidy(g', me, other) && CountTracks(v', g', other)
      && (v.friendRequest == Some(Sent) ==> v'.isFriend && other in Members(g'.friends, me))
      && (v.friendRequest != Some(Sent) ==> v'.friendRequest == Some(Received) && me in Members(g'.requests, other))
  {
    if v.friendRequest == Some(Sent) {
      FriendRequest.AcceptedSpec(g, me, other);
      BefriendCount(g.friends, me, other);
    }
  }

  /** Pressing the unsend button withdraws `me`'s request and keeps the view in step. */
  lemma UnsendKeepsInStep(v: View, g: Graph, me: UserId, other: UserId)
    requires me != other && Reflects(v, g, me, other) && Tidy(g, me, other) && CountTracks(v, g, other)
    requires ConnectOption(v) == UnsendButton
    ensures var (v', g') := UnsendStep(v, g, me, other);
      && Reflects(v', g', me, other) && Tidy(g', me, other) && CountTracks(v', g', other)
      && me !in Members(g'.requests, other) && v'.friendRequest == None
  {
  }

  /** "Remove friend" (offered only to friends) ends the friendship both ways and the count goes down by one. */
  lemma RemoveKeepsInStep(v: View, g: Graph, me: UserId, other: UserId)
    requires me != other && Reflects(v, g, me, other) && Tidy(g, me, other) && CountTracks(v, g, other)
    requires v.isFriend
    ensures var (v', g') := RemoveFriendStep(v, g, me, other);
      && Reflects(v', g', me, other) && Tidy(g', me, other) && CountTracks(v', g', other)
      && other !in Members(g'.friends, me) && me !in Members(g'.friends, other)
  {
    UnfriendSpec(g.friends, me, other);
    UnfriendCount(g.friends, me, other);
  }

  /** The profile screen's friendship state, over the shared backend. */
  class Profile {
    const me: UserId
    const userID: UserId
    const backend: Backend
    var isFriend: bool
    var friendRequest: Option<RequestStatus>
    var friendCount: int

    /** The route parameter `friend` seeds `isFriend`; the status starts null. */
    constructor(me: UserId, userID: UserId, friend: bool, friendCount: int, backend: Backend)
      ensures this.me == me && this.userID == userID && this.backend == backend
      ensures State() == View(friend, None, friendCount)
    {
      this.me := me;
      this.userID := userID;
      this.backend := backend;
      isFriend := friend;
      friendRequest := None;
      this.friendCount := friendCount;
    }

    function State(): View
      reads this
    {
      View(isFriend, friendRequest, friendCount)
    }

    /** The `checkIfFriend` chain. */
    method CheckIfFriend()
      modifies this
      ensures State() == Resolve(backend.Snapshot(), me, userID, old(State()))
    {
      if userID in Members(backend.friends, me) {
        isFriend := true;
      } else if me in Members(backend.requests, userID) {
        friendRequest := Some(Received);
      } else if userID in Members(backend.requests, me) {
        friendRequest := Some(Sent);
      }
    }

    /** `addFriend()` */
    method AddFriend()
      modifies this, backend
      ensures (State(), backend.Snapshot()) == AddFriendStep(old(State()), old(backend.Snapshot()), me, userID)
    {
      if friendRequest == Some(Sent) {
        friendRequest := None;
        isFriend := true;
        backend.SetFriend(me, userID);
        backend.SetFriend(userID, me);
        friendCount := friendCount + 1;
        backend.DeleteRequest(me, userID);
      } else {
        backend.SetRequest(userID, me);
        friendRequest := Some(Received);
      }
    }

    /** `unsendRequest()` */
    method UnsendRequest()
      modifies this, backend
      ensures (State(), backend.Snapshot()) == UnsendStep(old(State()), old(backend.Snapshot()), me, userID)
    {
      backend.DeleteRequest(userID, me);
      friendRequest := None;
    }

    /** `removeFriend()` */
    method RemoveFriend()
      modifies this, backend
      ensures (State(), backend.Snapshot()) == RemoveFriendStep(old(State()), old(backend.Snapshot()), me, userID)
    {
      isFriend := false;
      backend.DeleteFriend(me, userID);
      backend.DeleteFriend(userID, me);
      friendCount := friendCount - 1;
    }
  }
}
