/** The relationship handlers of the users router: the follow/unfollow toggle, which
    updates two user records at once, and the profile update, which merges only the
    fields the request supplies. */
module Users {
  import opened Common

  /** A stored user. The id never changes after registration. */
  class User {
    const id: Id
    var name: string
    var email: string
    var bio: string
    var profilePicture: string
    var followers: seq<Id>
    var following: seq<Id>

    constructor (id: Id, name: string, email: string, bio: string, profilePicture: string)
      ensures this.id == id && this.name == name && this.email == email
      ensures this.bio == bio && this.profilePicture == profilePicture
      ensures followers == [] && following == []
    {
      this.id := id;
      this.name := name;
      this.email := email;
      this.bio := bio;
      this.profilePicture := profilePicture;
      followers := [];
      following := [];
    }
  }

  /** The two lists a follow toggle touches: the actor's `following` and the
      target's `followers`. */
  datatype FollowLists = FollowLists(following: seq<Id>, followers: seq<Id>)

  /** The follow/unfollow decision and update. The decision reads only the actor's
      `following`, so afterwards "actor follows target" is recorded on both sides or
      on neither, whatever the target's `followers` held before. */
  function FollowToggle(l: FollowLists, actorId: Id, targetId: Id): (r: FollowLists)
    ensures targetId in r.following <==> targetId !in l.following
    ensures actorId in r.followers <==> targetId !in l.following
    ensures forall y :: y != targetId ==> (y in r.following <==> y in l.following)
    ensures forall y :: y != actorId ==> (y in r.followers <==> y in l.followers)
  {
    if targetId in l.following then
      FollowLists(Without(l.following, targetId), Without(l.followers, actorId))
    else
      FollowLists(l.following + [targetId], l.followers + [actorId])
  }

  /** Starting from mirrored, duplicate-free lists, a toggle keeps them mirrored and
      duplicate-free. */
  lemma FollowToggleKeepsInvariant(l: FollowLists, actorId: Id, targetId: Id)
    requires targetId in l.following <==> actorId in l.followers
    requires NoDup(l.following) && NoDup(l.followers)
    ensures var r := FollowToggle(l, actorId, targetId);
      && (targetId in r.following <==> actorId in r.followers)
      && NoDup(r.following) && NoDup(r.followers)
  {
    if targetId in l.following {
      WithoutNoDup(l.following, targetId);
      WithoutNoDup(l.followers, actorId);
    }
  }

  /** Following and then unfollowing restores both lists exactly. */
  lemma FollowTwice(l: FollowLists, actorId: Id, targetId: Id)
    requires targetId !in l.following && actorId !in l.followers
    ensures FollowToggle(FollowToggle(l, actorId, targetId), actorId, targetId) == l
  {
    ToggleTwice(l.following, targetId);
    ToggleTwice(l.followers, actorId);
  }

  /** Because the decision ignores the target's `followers`, a pair that is out of
      step (the target lists the actor, the actor does not list the target) gets
      the actor pushed a second time. */
  lemma UnmirroredFollowDuplicates(actorId: Id, targetId: Id)
    ensures FollowToggle(FollowLists([], [actorId]), actorId, targetId).followers == [actorId, actorId]
  {
  }

  /** A user with no relations follows another, then toggles again: the lists go
      to `[target]` / `[actor]` and then back to empty. */
  lemma FollowScenario(actorId: Id, targetId: Id)
    ensures FollowToggle(FollowLists([], []), actorId, targetId) == FollowLists([targetId], [actorId])
    ensures FollowToggle(FollowLists([targetId], [actorId]), actorId, targetId) == FollowLists([], [])
  {
    assert [targetId][..0] == [] && [actorId][..0] == [];
  }

  /** The relationship lists of one user record. Unlike `FollowLists`, which pairs
      lists of two different users (the actor's `following` with the target's
      `followers`), both lists here belong to the same user. */
  datatype Relations = Relations(following: seq<Id>, followers: seq<Id>)

  /** The pair predicate: "user `a` follows user `b`" is recorded on both records
      (in `a.following` and in `b.followers`) or on neither. */
  predicate Mirrored(aId: Id, a: Relations, bId: Id, b: Relations) {
    bId in a.following <==> aId in b.followers
  }

  /** A user's own lists hold no duplicates and never the user themself. */
  predicate WellFormed(id: Id, u: Relations) {
    NoDup(u.following) && NoDup(u.followers) && id !in u.following && id !in u.followers
  }

  /** The relation invariant over all stored users, given by id: every ordered pair
      is mirrored and every user is well formed. */
  predicate Consistent(g: map<Id, Relations>) {
    && (forall a, b :: a in g && b in g ==> Mirrored(a, g[a], b, g[b]))
    && (forall a :: a in g ==> WellFormed(a, g[a]))
  }

  /** The whole store after a successful toggle by `actorId` on `targetId`: only
      those two records change, and only in the two lists the toggle touches. */
  function ApplyFollow(g: map<Id, Relations>, actorId: Id, targetId: Id): (r: map<Id, Relations>)
    requires actorId in g && targetId in g && actorId != targetId
    ensures r.Keys == g.Keys
    ensures forall k :: k in g && k != actorId && k != targetId ==> r[k] == g[k]
    ensures r[actorId].followers == g[actorId].followers && r[targetId].following == g[targetId].following
  {
    var l := FollowToggle(FollowLists(g[actorId].following, g[targetId].followers), actorId, targetId);
    g[actorId := g[actorId].(following := l.following)][targetId := g[targetId].(followers := l.followers)]
  }

  /** A follow toggle between two distinct stored users keeps the relation
      invariant of the whole store. */
  lemma FollowKeepsConsistent(g: map<Id, Relations>, actorId: Id, targetId: Id)
    requires actorId in g && targetId in g && actorId != targetId
    requires Consistent(g)
    ensures Consistent(ApplyFollow(g, actorId, targetId))
  {
    var l := FollowLists(g[actorId].following, g[targetId].followers);
    assert Mirrored(actorId, g[actorId], targetId, g[targetId]);
    FollowToggleKeepsInvariant(l, actorId, targetId);
    var r := ApplyFollow(g, actorId, targetId);
    forall a, b | a in r && b in r
      ensures Mirrored(a, r[a], b, r[b])
    {
      assert Mirrored(a, g[a], b, g[b]);
    }
    forall a | a in r
      ensures WellFormed(a, r[a])
    {
      assert WellFormed(a, g[a]);
    }
  }

  /** Follow then unfollow, on a consistent store, gives back the store exactly. */
  lemma FollowTwiceRestores(g: map<Id, Relations>, actorId: Id, targetId: Id)
    requires actorId in g && targetId in g && actorId != targetId
    requires Consistent(g) && targetId !in g[actorId].following
    ensures ApplyFollow(ApplyFollow(g, actorId, targetId), actorId, targetId) == g
  {
    assert Mirrored(actorId, g[actorId], targetId, g[targetId]);
    FollowTwice(FollowLists(g[actorId].following, g[targetId].followers), actorId, targetId);
    var r := ApplyFollow(ApplyFollow(g, actorId, targetId), actorId, targetId);
    assert forall k :: k in g ==> r[k] == g[k];
  }

  /** The update step of the follow handler on the two loaded records: when the
      actor already follows the target, both lists are filtered; otherwise both get
      the other's id pushed. Nothing else in either record changes. */
  method ApplyToggle(currentUser: User, userToFollow: User)
    requires currentUser != userToFollow
    modifies currentUser`following, userToFollow`followers
    ensures FollowLists(currentUser.following, userToFollow.followers)
      == FollowToggle(FollowLists(old(currentUser.following), old(userToFollow.followers)), currentUser.id, userToFollow.id)
  {
    if userToFollow.id in currentUser.following {
      var following := FilterOut(currentUser.following, userToFollow.id);
      currentUser.following := following;
      var followers := FilterOut(userToFollow.followers, currentUser.id);
      userToFollow.followers := followers;
    } else {
      currentUser.following := currentUser.following + [userToFollow.id];
      userToFollow.followers := userToFollow.followers + [currentUser.id];
    }
  }

  /** The optional fields of a profile request body; `None` is an absent field. */
  datatype ProfileRequest = ProfileRequest(name: Option<string>, bio: Option<string>, profilePicture: Option<string>)

  /** The collection of stored users, keyed by id. */
  class UserStore {
    var users: map<Id, User>

    /** Every user is stored under its own id, so two keys never share a record. */
    ghost predicate Valid()
      reads this
    {
      forall k :: k in users ==> users[k].id == k
    }

    /** The relationship lists of every stored user, by id. */
    ghost function Graph(): map<Id, Relations>
      reads this, users.Values
    {
      map k | k in users :: Relations(users[k].following, users[k].followers)
    }

    constructor ()
      ensures Valid() && users == map[] && Consistent(Graph())
    {
      users := map[];
    }

    /** PUT /api/users/follow/:id. Following oneself is rejected before any lookup;
        a missing target is 404; a missing actor record makes the handler throw (500).
        Otherwise the actor's `following` and the target's `followers` are toggled
        together, and no other record is touched. */
    method ToggleFollow(actorId: Id, targetId: Id) returns (o: Outcome)
      requires Valid()
      modifies (if actorId in users then {users[actorId]} else {})`following
      modifies (if targetId in users then {users[targetId]} else {})`followers
      ensures actorId == targetId ==> o == BadRequest("You cannot follow yourself")
      ensures actorId != targetId && targetId !in users ==> o == NotFound("User not found")
      ensures actorId != targetId && targetId in users && actorId !in users ==> o == ServerError
      ensures o.Ok? <==> actorId != targetId && targetId in users && actorId in users
      ensures !o.Ok? ==> forall k :: k in users ==> unchanged(users[k])
      ensures o.Ok? ==>
        FollowLists(users[actorId].following, users[targetId].followers)
        == FollowToggle(FollowLists(old(users[actorId].following), old(users[targetId].followers)), actorId, targetId)
      ensures forall k :: k in users && k != actorId && k != targetId ==> unchanged(users[k])
      ensures o.Ok? ==> Graph() == ApplyFollow(old(Graph()), actorId, targetId)
      ensures Consistent(old(Graph())) ==> Consistent(Graph())
    {
      if actorId == targetId {
        return BadRequest("You cannot follow yourself");
      }
      if targetId !in users {
        return NotFound("User not found");
      }
      if actorId !in users {
        return ServerError;
      }
      var currentUser, userToFollow := users[actorId], users[targetId];
      ghost var g := Graph();
      ApplyToggle(currentUser, userToFollow);
      o := Ok;
      forall k | k in users
        ensures Graph()[k] == ApplyFollow(g, actorId, targetId)[k]
      {
      }
      if Consistent(old(Graph())) {
        FollowKeepsConsistent(old(Graph()), actorId, targetId);
      }
    }

    /** PUT /api/users/profile. A missing or empty name is rejected before the lookup;
        otherwise `name` is overwritten (it is non-empty), `bio` and `profilePicture`
        are overwritten whenever supplied, even with "", and nothing else changes. */
    method UpdateProfile(actorId: Id, req: ProfileRequest) returns (o: Outcome)
      requires Valid()
      modifies if actorId in users then {users[actorId]} else {}
      ensures req.name == None || req.name == Some("") ==> o == BadRequest("Name is required")
      ensures req.name.Some? && req.name.value != "" && actorId !in users ==> o == NotFound("User not found")
      ensures actorId in users ==>
        var u := users[actorId];
        && (req.name == None || req.name == Some("") ==> unchanged(u))
        && (req.name.Some? && req.name.value != "" ==>
              && o == Ok
              && u.name == req.name.value
              && u.bio == (if req.bio.Some? then req.bio.value else old(u.bio))
              && u.profilePicture == (if req.profilePicture.Some? then req.profilePicture.value else old(u.profilePicture))
              && u.email == old(u.email) && u.followers == old(u.followers) && u.following == old(u.following))
      ensures Graph() == old(Graph())
    {
      if req.name == None || req.name == Some("") {
        return BadRequest("Name is required");
      }
      // the `profileFields` object, built field by field
      var fields := ProfileRequest(None, None, None);
      if req.name.Some? && req.name.value != "" {
        fields := fields.(name := req.name);
      }
      if req.bio.Some? {
        fields := fields.(bio := req.bio);
      }
      if req.profilePicture.Some? {
        fields := fields.(profilePicture := req.profilePicture);
      }
      if actorId !in users {
        return NotFound("User not found");
      }
      // `$set: profileFields`
      var user := users[actorId];
      if fields.name.Some? {
        user.name := fields.name.value;
      }
      if fields.bio.Some? {
        user.bio := fields.bio.value;
      }
      if fields.profilePicture.Some? {
        user.profilePicture := fields.profilePicture.value;
      }
      o := Ok;
    }
  }

  /** Follow and then unfollow through the handler, on a consistent store, leaves
      every relationship list as it was. */
  method FollowThenUnfollow(store: UserStore, actorId: Id, targetId: Id)
    requires store.Valid() && Consistent(store.Graph())
    requires actorId != targetId && actorId in store.users && targetId in store.users
    requires targetId !in store.users[actorId].following
    modifies store.users.Values
    ensures store.users == old(store.users) && store.Graph() == old(store.Graph())
  {
    ghost var g := store.Graph();
    var o1 := store.ToggleFollow(actorId, targetId);
    var o2 := store.ToggleFollow(actorId, targetId);
    FollowTwiceRestores(g, actorId, targetId);
  }
}
