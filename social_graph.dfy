/**
 * The two backend relations the friendship screens read and write: every user
 * document has a `friends` sub-collection (the ids of the user's friends) and a
 * `friendRequests` sub-collection (the ids of the users whose request is
 * pending for that user). A sub-collection is a set of ids keyed by its owner.
 */
module SocialGraph {
  type UserId = string

  /** owner -> the ids stored in the owner's sub-collection */
  type Relation = map<UserId, set<UserId>>

  /** The ids in `owner`'s sub-collection (none when it was never written). */
  function Members(rel: Relation, owner: UserId): set<UserId> {
    if owner in rel then rel[owner] else {}
  }

  /** `setDoc(doc(db, 'users', owner, ..., member), ...)`: adds one document, idempotently. */
  function Insert(rel: Relation, owner: UserId, member: UserId): (r: Relation)
    ensures forall o, m :: m in Members(r, o) <==> m in Members(rel, o) || (o == owner && m == member)
  {
    rel[owner := Members(rel, owner) + {member}]
  }

  /** `deleteDoc(doc(db, 'users', owner, ..., member))`: removes one document, if present. */
  function Remove(rel: Relation, owner: UserId, member: UserId): (r: Relation)
    ensures forall o, m :: m in Members(r, o) <==> m in Members(rel, o) && !(o == owner && m == member)
  {
    rel[owner := Members(rel, owner) - {member}]
  }

  /** Friendship is mutual: `b` is in `a`'s friends iff `a` is in `b`'s. */
  ghost predicate Symmetric(rel: Relation) {
    forall a, b :: b in Members(rel, a) ==> a in Members(rel, b)
  }

  /** The state of both relations. `requests[u]` holds the senders of the requests pending for `u`. */
  datatype Graph = Graph(friends: Relation, requests: Relation)

  /** Both `setDoc` writes of a new friendship: `a` into `b`'s friends after `b` into `a`'s. */
  function Befriend(friends: Relation, a: UserId, b: UserId): Relation {
    Insert(Insert(friends, a, b), b, a)
  }

  /** Both `deleteDoc` deletes of a friendship. */
  function Unfriend(friends: Relation, a: UserId, b: UserId): Relation {
    Remove(Remove(friends, a, b), b, a)
  }

  /** Befriending adds exactly the pair in both directions and so keeps friendship mutual. */
  lemma BefriendSpec(friends: Relation, a: UserId, b: UserId)
    ensures var r := Befriend(friends, a, b);
      && b in Members(r, a) && a in Members(r, b)
      && (forall o, m :: m in Members(r, o) <==> m in Members(friends, o) || (o == a && m == b) || (o == b && m == a))
      && (Symmetric(friends) ==> Symmetric(r))
  {
  }

  /** Unfriending removes exactly the pair in both directions and so keeps friendship mutual. */
  lemma UnfriendSpec(friends: Relation, a: UserId, b: UserId)
    ensures var r := Unfriend(friends, a, b);
      && b !in Members(r, a) && a !in Members(r, b)
      && (forall o, m :: m in Members(r, o) <==> m in Members(friends, o) && !(o == a && m == b) && !(o == b && m == a))
      && (Symmetric(friends) ==> Symmetric(r))
  {
  }

  /** A new friendship raises the other user's friend count by one. */
  lemma BefriendCount(friends: Relation, a: UserId, b: UserId)
    requires Symmetric(friends) && a != b && b !in Members(friends, a)
    ensures |Members(Befriend(friends, a, b), b)| == |Members(friends, b)| + 1
  {
    assert a !in Members(friends, b);
    assert Members(Befriend(friends, a, b), b) == Members(friends, b) + {a};
  }

  /** Ending a friendship lowers the other user's friend count by one. */
  lemma UnfriendCount(friends: Relation, a: UserId, b: UserId)
    requires Symmetric(friends) && a != b && b in Members(friends, a)
    ensures |Members(Unfriend(friends, a, b), b)| + 1 == |Members(friends, b)|
  {
    assert a in Members(friends, b);
    assert Members(Unfriend(friends, a, b), b) == Members(friends, b) - {a};
  }

  /**
   * The backend as a mutable store. Each method is one document write or
   * delete; the screens' handlers are sequences of these.
   */
  class Backend {
    var friends: Relation
    var requests: Relation

    constructor(friends: Relation, requests: Relation)
      ensures this.friends == friends && this.requests == requests
    {
      this.friends := friends;
      this.requests := requests;
    }

    function Snapshot(): Graph
      reads this
    {
      Graph(friends, requests)
    }

    method SetFriend(owner: UserId, member: UserId)
      modifies this
      ensures friends == Insert(old(friends), owner, member) && requests == old(requests)
    {
      friends := Insert(friends, owner, member);
    }

    method DeleteFriend(owner: UserId, member: UserId)
      modifies this
      ensures friends == Remove(old(friends), owner, member) && requests == old(requests)
    {
      friends := Remove(friends, owner, member);
    }

    method SetRequest(recipient: UserId, sender: UserId)
      modifies this
      ensures requests == Insert(old(requests), recipient, sender) && friends == old(friends)
    {
      requests := Insert(requests, recipient, sender);
    }

    method DeleteRequest(recipient: UserId, sender: UserId)
      modifies this
      ensures requests == Remove(old(requests), recipient, sender) && friends == old(friends)
    {
      requests := Remove(requests, recipient, sender);
    }
  }
}
