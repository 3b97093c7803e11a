/** `UserLocalDataSource`: the in-memory table of users, keyed by id.

    The table is a Kotlin `mutableMapOf`, a LinkedHashMap: `values` lists the
    entries in the order their keys were first inserted, overwriting a key keeps
    its place, removing it drops it from the order. The model keeps that order
    in `keyOrder` beside `usersMap`. */
module UserLocalDataSource {
  import opened Kotlin
  import opened DataModels
  import opened NetworkErrors

  /** The table's abstract state: the entries and their key order. */
  datatype Store = Store(users: map<int, UserModel>, order: seq<int>)

  ghost predicate Distinct(s: seq<int>) {
    forall i, j :: 0 <= i < j < |s| ==> s[i] != s[j]
  }

  /** The key order lists every key of the table once. */
  ghost predicate WellFormed(st: Store) {
    Distinct(st.order) && forall k :: k in st.order <==> k in st.users
  }

  const EmptyStore: Store := Store(map[], [])

  // ---------------------------------------------------------------------------
  // The failures the local source reports

  function NotFoundException(userId: int): Throwable {
    Plain(JvmException(OtherException, Some("User not found with ID: " + IntToString(userId))))
  }

  const InvalidIdException: Throwable := Plain(JvmException(OtherException, Some("Invalid user ID: ID cannot be empty")))

  // ---------------------------------------------------------------------------
  // The four operations as functions of the state

  /** `getUserById`: the entry for `userId`, or a not-found failure. */
  function Lookup(users: map<int, UserModel>, userId: int): Result<UserModel, Throwable> {
    if userId in users then Ok(users[userId]) else Err(NotFoundException(userId))
  }

  /** `usersMap.values.toList()`: the entries in key order. */
  function ValuesInOrder(order: seq<int>, users: map<int, UserModel>): (r: seq<UserModel>)
    requires forall i :: 0 <= i < |order| ==> order[i] in users
    ensures |r| == |order|
    ensures forall i :: 0 <= i < |order| ==> r[i] == users[order[i]]
  {
    if order == [] then []
    else ValuesInOrder(order[..|order| - 1], users) + [users[order[|order| - 1]]]
  }

  function Values(st: Store): seq<UserModel>
    requires WellFormed(st)
  {
    OrderKeysStored(st);
    ValuesInOrder(st.order, st.users)
  }

  /** What `saveUser` returns. */
  function SaveResult(userModel: UserModel): Result<bool, Throwable> {
    if userModel.id != UnassignedId then Ok(true) else Err(InvalidIdException)
  }

  /** What `saveUser` does to the table: `usersMap[id] = userModel` unless the id is the sentinel. */
  function SaveEffect(st: Store, userModel: UserModel): Store {
    if userModel.id != UnassignedId then
      Store(st.users[userModel.id := userModel],
            if userModel.id in st.users then st.order else st.order + [userModel.id])
    else st
  }

  /** What `deleteUser` returns. */
  function DeleteResult(users: map<int, UserModel>, userId: int): Result<bool, Throwable> {
    if userId in users then Ok(true) else Err(NotFoundException(userId))
  }

  /** The key order with `k` taken out. */
  function RemoveKey(order: seq<int>, k: int): (r: seq<int>)
    ensures forall x :: x in r <==> x in order && x != k
  {
    if order == [] then []
    else if order[0] == k then RemoveKey(order[1..], k)
    else [order[0]] + RemoveKey(order[1..], k)
  }

  /** What `deleteUser` does to the table. */
  function DeleteEffect(st: Store, userId: int): Store {
    if userId in st.users then Store(st.users - {userId}, RemoveKey(st.order, userId)) else st
  }

  /** Saving each model in turn, as `getAllUsers` of the repository does. */
  function SaveAllEffect(st: Store, models: seq<UserModel>): Store
    decreases |models|
  {
    if models == [] then st
    else SaveEffect(SaveAllEffect(st, models[..|models| - 1]), models[|models| - 1])
  }

  // ---------------------------------------------------------------------------
  // The table

  class UserLocalDataSource {
    var usersMap: map<int, UserModel>
    var keyOrder: seq<int>

    function State(): Store
      reads this
    {
      Store(usersMap, keyOrder)
    }

    ghost predicate Valid()
      reads this
    {
      WellFormed(State())
    }

    constructor ()
      ensures Valid() && State() == EmptyStore
    {
      usersMap := map[];
      keyOrder := [];
    }

    /** `getUserById`. */
    method GetUserById(userId: int) returns (r: Result<UserModel, Throwable>)
      ensures r == Lookup(usersMap, userId)
    {
      if userId in usersMap {
        r := Ok(usersMap[userId]);
      } else {
        r := Err(NotFoundException(userId));
      }
    }

    /** `getAllUsers`: always succeeds. */
    method GetAllUsers() returns (r: Result<seq<UserModel>, Throwable>)
      requires Valid()
      ensures r == Ok(Values(State()))
    {
      OrderKeysStored(State());
      r := Ok(ValuesInOrder(keyOrder, usersMap));
    }

    /** `saveUser`. */
    method SaveUser(userModel: UserModel) returns (r: Result<bool, Throwable>)
      requires Valid()
      modifies this
      ensures Valid()
      ensures r == SaveResult(userModel)
      ensures State() == SaveEffect(old(State()), userModel)
    {
      if userModel.id != UnassignedId {
        if userModel.id !in usersMap {
          keyOrder := keyOrder + [userModel.id];
        }
        usersMap := usersMap[userModel.id := userModel];
        r := Ok(true);
      } else {
        r := Err(InvalidIdException);
      }
      SaveEffectWellFormed(old(State()), userModel);
    }

    /** `deleteUser`. */
    method DeleteUser(userId: int) returns (r: Result<bool, Throwable>)
      requires Valid()
      modifies this
      ensures Valid()
      ensures r == DeleteResult(old(usersMap), userId)
      ensures State() == DeleteEffect(old(State()), userId)
    {
      if userId in usersMap {
        usersMap := usersMap - {userId};
        keyOrder := RemoveKey(keyOrder, userId);
        r := Ok(true);
      } else {
        r := Err(NotFoundException(userId));
      }
      DeleteEffectWellFormed(old(State()), userId);
    }
  }

  // ---------------------------------------------------------------------------
  // Properties

  lemma OrderKeysStored(st: Store)
    requires WellFormed(st)
    ensures forall i :: 0 <= i < |st.order| ==> st.order[i] in st.users
  {
    forall i | 0 <= i < |st.order| ensures st.order[i] in st.users {
      assert st.order[i] in st.order;
    }
  }

  /** The state invariant holds initially and is kept by save and delete. */
  lemma SaveEffectWellFormed(st: Store, m: UserModel)
    requires WellFormed(st)
    ensures WellFormed(SaveEffect(st, m))
  {
  }

  lemma {:induction false} RemoveKeyDistinct(order: seq<int>, k: int)
    requires Distinct(order)
    ensures Distinct(RemoveKey(order, k))
  {
    if order != [] {
      RemoveKeyDistinct(order[1..], k);
      var r := RemoveKey(order[1..], k);
      if order[0] != k {
        assert order[0] !in r by {
          assert order[0] !in order[1..];
        }
        assert RemoveKey(order, k) == [order[0]] + r;
      }
    }
  }

  lemma DeleteEffectWellFormed(st: Store, userId: int)
    requires WellFormed(st)
    ensures WellFormed(DeleteEffect(st, userId))
  {
    RemoveKeyDistinct(st.order, userId);
  }

  /** After a successful save, reading the id back gives exactly the saved model. */
  lemma SaveThenGet(st: Store, m: UserModel)
    requires m.id != UnassignedId
    ensures SaveResult(m) == Ok(true)
    ensures Lookup(SaveEffect(st, m).users, m.id) == Ok(m)
  {
  }

  /** Saving the sentinel id fails and leaves the table as it was. */
  lemma SaveSentinel(st: Store, m: UserModel)
    requires m.id == UnassignedId
    ensures SaveResult(m) == Err(InvalidIdException)
    ensures SaveEffect(st, m) == st
  {
  }

  /** A save overwrites the entry for its id and nothing else: every other key keeps
      its entry, and the key order changes only by appending a new id. */
  lemma SaveFrame(st: Store, m: UserModel, k: int)
    requires m.id != UnassignedId && k != m.id
    ensures k in SaveEffect(st, m).users <==> k in st.users
    ensures k in st.users ==> SaveEffect(st, m).users[k] == st.users[k]
    ensures SaveEffect(st, m).users.Keys == st.users.Keys + {m.id}
    ensures m.id in st.users ==> SaveEffect(st, m).order == st.order
    ensures m.id !in st.users ==> SaveEffect(st, m).order == st.order + [m.id]
  {
  }

  /** An absent id reads as not found, with the id in the message. */
  lemma GetAbsent(users: map<int, UserModel>, userId: int)
    requires userId !in users
    ensures Lookup(users, userId) == Err(Plain(JvmException(OtherException, Some("User not found with ID: " + IntToString(userId)))))
  {
  }

  /** Deleting a present id removes exactly that key and succeeds; deleting an absent
      id fails with not-found and changes nothing. */
  lemma DeleteSpec(st: Store, userId: int)
    requires WellFormed(st)
    ensures userId in st.users ==>
      DeleteResult(st.users, userId) == Ok(true) &&
      DeleteEffect(st, userId).users == st.users - {userId} &&
      Lookup(DeleteEffect(st, userId).users, userId).Err?
    ensures userId !in st.users ==>
      DeleteResult(st.users, userId) == Err(NotFoundException(userId)) &&
      DeleteEffect(st, userId) == st
  {
  }

  lemma {:induction false} DistinctCardinality(s: seq<int>)
    requires Distinct(s)
    ensures |set x | x in s| == |s|
  {
    if s != [] {
      var t := s[..|s| - 1];
      assert Distinct(t);
      DistinctCardinality(t);
      var last := s[|s| - 1];
      assert last !in t;
      assert (set x | x in s) == (set x | x in t) + {last};
    }
  }

  /** `getAllUsers` lists every stored entry exactly once: one value per key, and
      every key's value appears where that key stands in the key order. */
  lemma ValuesOnePerKey(st: Store)
    requires WellFormed(st)
    ensures |Values(st)| == |st.users|
    ensures forall k :: k in st.users ==> exists i :: 0 <= i < |st.order| && st.order[i] == k && Values(st)[i] == st.users[k]
    ensures forall i :: 0 <= i < |Values(st)| ==> st.order[i] in st.users && Values(st)[i] == st.users[st.order[i]]
  {
    DistinctCardinality(st.order);
    assert (set x | x in st.order) == st.users.Keys;
    forall k | k in st.users
      ensures exists i :: 0 <= i < |st.order| && st.order[i] == k && Values(st)[i] == st.users[k]
    {
      var i :| 0 <= i < |st.order| && st.order[i] == k;
    }
  }

  /** The last model saved under an id, among `models`. */
  function LastWithId(models: seq<UserModel>, k: int): Option<UserModel>
    decreases |models|
  {
    if models == [] then None
    else if models[|models| - 1].id == k then Some(models[|models| - 1])
    else LastWithId(models[..|models| - 1], k)
  }

  /** Saving a list of models is last-write-wins per id: an id that occurs in the list
      (and is not the sentinel) ends up holding its last model; every other id keeps
      what it had. */
  lemma {:induction false} SaveAllLastWriteWins(st: Store, models: seq<UserModel>, k: int)
    ensures var after := SaveAllEffect(st, models).users;
      (k != UnassignedId && LastWithId(models, k).Some? ==> k in after && after[k] == LastWithId(models, k).value) &&
      (k == UnassignedId || LastWithId(models, k).None? ==>
        (k in after <==> k in st.users) && (k in st.users ==> after[k] == st.users[k]))
    decreases |models|
  {
    if models != [] {
      SaveAllLastWriteWins(st, models[..|models| - 1], k);
    }
  }

  /** The key order after saving a list is well formed, whatever the list holds. */
  lemma {:induction false} SaveAllWellFormed(st: Store, models: seq<UserModel>)
    requires WellFormed(st)
    ensures WellFormed(SaveAllEffect(st, models))
    decreases |models|
  {
    if models != [] {
      SaveAllWellFormed(st, models[..|models| - 1]);
      SaveEffectWellFormed(SaveAllEffect(st, models[..|models| - 1]), models[|models| - 1]);
    }
  }

  /** Every model in the list with an assigned id is in the table afterwards. */
  lemma {:induction false} SaveAllCaches(st: Store, models: seq<UserModel>, i: nat)
    requires i < |models| && models[i].id != UnassignedId
    ensures models[i].id in SaveAllEffect(st, models).users
  {
    LastWithIdFound(models, i);
    SaveAllLastWriteWins(st, models, models[i].id);
  }

  lemma {:induction false} LastWithIdFound(models: seq<UserModel>, i: nat)
    requires i < |models|
    ensures LastWithId(models, models[i].id).Some?
    decreases |models|
  {
    if i < |models| - 1 && models[|models| - 1].id != models[i].id {
      LastWithIdFound(models[..|models| - 1], i);
    }
  }
}
