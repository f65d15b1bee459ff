/** The in-memory user store of `server/storage.ts`: a `Map` from id to user
    and an auto-increment counter. A JavaScript `Map` iterates in insertion
    order; `order` records that order next to the map. */
module UserStore {
  import opened Base
  import opened Schema

  class MemStorage {
    var users: map<int, User>
    /** The keys of `users` in the order they were set. */
    var order: seq<int>
    var currentId: int

    /** Every stored key is its user's id, lies below `currentId`, and the
        keys were inserted in strictly increasing order. */
    ghost predicate Valid()
      reads this
    {
      && currentId >= 1
      && (forall i :: 0 <= i < |order| ==> order[i] in users)
      && (forall k :: k in users ==> k in order)
      && (forall i, j :: 0 <= i < j < |order| ==> order[i] < order[j])
      && (forall k :: k in users ==> users[k].id == k && 1 <= k < currentId)
    }

    /** A new store holds no user and starts counting at 1. */
    constructor ()
      ensures Valid()
      ensures users == map[] && order == [] && currentId == 1
    {
      users := map[];
      order := [];
      currentId := 1;
    }

    /** `getUser(id)`: the stored user, or `undefined`. */
    method GetUser(id: int) returns (r: Option<User>)
      requires Valid()
      ensures r.Some? <==> id in users
      ensures r.Some? ==> r.value == users[id] && r.value.id == id
    {
      if id in users {
        r := Some(users[id]);
      } else {
        r := None;
      }
    }

    /** `getUserByUsername(name)`: the first user in insertion order whose
        username is `name`, or `undefined` when there is none. Since ids grow
        with insertion, the first one is the one with the smallest id. */
    method GetUserByUsername(username: string) returns (r: Option<User>)
      requires Valid()
      ensures r.None? <==> forall k :: k in users ==> users[k].username != username
      ensures r.Some? ==> r.value.username == username && r.value.id in users && users[r.value.id] == r.value
      ensures r.Some? ==> forall k :: k in users && k < r.value.id ==> users[k].username != username
    {
      var keys := order;
      var i := 0;
      while i < |keys|
        invariant 0 <= i <= |keys|
        invariant forall j :: 0 <= j < i ==> users[keys[j]].username != username
      {
        var u := users[keys[i]];
        if u.username == username {
          forall k | k in users && k < u.id
            ensures users[k].username != username
          {
            var j :| 0 <= j < |keys| && keys[j] == k;
            assert j != i;
            assert j < i;
          }
          return Some(u);
        }
        i := i + 1;
      }
      return None;
    }

    /** `createUser(insertUser)`: the user gets the current counter as id,
        the counter moves on by one, and nothing stored before changes. The
        username is not checked against the stored ones. */
    method CreateUser(insertUser: NewUser) returns (user: User)
      requires Valid()
      modifies this
      ensures Valid()
      ensures user == WithId(insertUser, old(currentId))
      ensures currentId == old(currentId) + 1
      ensures user.id !in old(users)
      ensures users == old(users)[user.id := user]
      ensures order == old(order) + [user.id]
      ensures forall k :: k in old(users) ==> k in users && users[k] == old(users)[k]
    {
      var id := currentId;
      currentId := currentId + 1;
      user := WithId(insertUser, id);
      users := users[id := user];
      order := order + [id];
    }
  }

  /** Creating a user and then looking up its id finds exactly that user. */
  method CreateThenGet(store: MemStorage, insertUser: NewUser) returns (created: User, found: Option<User>)
    requires store.Valid()
    modifies store
    ensures store.Valid()
    ensures found == Some(created)
  {
    created := store.CreateUser(insertUser);
    found := store.GetUser(created.id);
  }

  /** Two registrations with one username both succeed with distinct ids;
      a lookup by that username then returns the earlier stored one. */
  method DuplicateUsernames(store: MemStorage, insertUser: NewUser)
      returns (first: User, second: User, found: Option<User>)
    requires store.Valid()
    modifies store
    ensures first.username == second.username == insertUser.username
    ensures first.id < second.id
    ensures found.Some? && found.value.id <= first.id
    ensures (forall k :: k in old(store.users) ==> old(store.users)[k].username != insertUser.username)
            ==> found == Some(first)
  {
    first := store.CreateUser(insertUser);
    second := store.CreateUser(insertUser);
    assert store.users[first.id] == first;
    found := store.GetUserByUsername(insertUser.username);
  }
}
