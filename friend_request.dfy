/**
 * A pending request in the current user's request list
 * (src/components/display/FriendRequest.js): accepting it makes the two users
 * friends and removes the request; deleting it only removes the request.
 */
module FriendRequest {
  import opened SocialGraph

  /** The relations after `acceptRequest` by `me` of `requester`'s request. */
  function Accepted(g: Graph, me: UserId, requester: UserId): Graph {
    Graph(Befriend(g.friends, me, requester), Remove(g.requests, me, requester))
  }

  /** The relations after `deleteRequest`. */
  function Declined(g: Graph, me: UserId, requester: UserId): Graph {
    Graph(g.friends, Remove(g.requests, me, requester))
  }

  /** `acceptRequest()`: two friend writes, then the request delete. */
  method AcceptRequest(backend: Backend, me: UserId, requester: UserId)
    modifies backend
    ensures backend.Snapshot() == Accepted(old(backend.Snapshot()), me, requester)
  {
    backend.SetFriend(me, requester);
    backend.SetFriend(requester, me);
    backend.DeleteRequest(me, requester);
  }

  /** `deleteRequest()` */
  method DeleteRequest(backend: Backend, me: UserId, requester: UserId)
    modifies backend
    ensures backend.Snapshot() == Declined(old(backend.Snapshot()), me, requester)
  {
    backend.DeleteRequest(me, requester);
  }

  /**
   * Accepting makes the two users friends both ways and drops the request;
   * every other user's friends and every other request stay as they were, and
   * friendship stays mutual.
   */
  lemma AcceptedSpec(g: Graph, me: UserId, requester: UserId)
    ensures var r := Accepted(g, me, requester);
      && requester in Members(r.friends, me) && me in Members(r.friends, requester)
      && requester !in Members(r.requests, me)
      && (forall o, m :: o != me && o != requester ==> (m in Members(r.friends, o) <==> m in Members(g.friends, o)))
      && (forall o, m :: !(o == me && m == requester) ==> (m in Members(r.requests, o) <==> m in Members(g.requests, o)))
      && (Symmetric(g.friends) ==> Symmetric(r.friends))
  {
    BefriendSpec(g.friends, me, requester);
  }

  /** Deleting drops only that request and leaves the friends relation as it was. */
  lemma DeclinedSpec(g: Graph, me: UserId, requester: UserId)
    ensures var r := Declined(g, me, requester);
      && r.friends == g.friends
      && requester !in Members(r.requests, me)
      && (forall o, m :: !(o == me && m == requester) ==> (m in Members(r.requests, o) <==> m in Members(g.requests, o)))
  {
  }

  /** Accepting the same request twice leaves the relations as accepting it once. */
  lemma AcceptedIdempotent(g: Graph, me: UserId, requester: UserId)
    ensures Accepted(Accepted(g, me, requester), me, requester) == Accepted(g, me, requester)
  {
    var once := Accepted(g, me, requester);
    var twice := Accepted(once, me, requester);
    assert twice.friends == once.friends by {
      assert Members(once.friends, me) + {requester} == Members(once.friends, me);
      assert Insert(once.friends, me, requester) == once.friends;
      assert Members(once.friends, requester) + {me} == Members(once.friends, requester);
    }
    assert Members(once.requests, me) - {requester} == Members(once.requests, me);
  }
}
