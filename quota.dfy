/**
 * The per-user storage quota of `checkStorageLimit`: a byte counter in the user document, kept in
 * the field `usedStorageMB` even though it counts bytes, checked against a fixed cap of 100 MiB.
 */
module Quota {
  import opened Wrappers

  const StorageLimit: int := 100 * 1024 * 1024

  const UserNotFound: string := "User document not found"
  const LimitExceeded: string := "Storage limit exceeded"

  /** A user document; `usedStorageMB` is `None` when the field is absent. */
  datatype User = User(usedStorageMB: Option<int>)

  /** `userData.usedStorageMB || 0`. */
  function StoredUsage(u: User): int {
    match u.usedStorageMB
    case None => 0
    case Some(b) => b
  }

  /** The outcome of one check-and-charge: the returned total or the error, and the user documents after it. */
  datatype Reservation = Reservation(outcome: Result<int>, users: map<string, User>)

  /** Every stored counter is within the cap. */
  predicate WithinLimit(users: map<string, User>) {
    forall id :: id in users ==> StoredUsage(users[id]) <= StorageLimit
  }

  /**
   * `checkStorageLimit(userId, size)`. A missing user document is an error; otherwise the charge is
   * granted exactly when the new total is at most the cap, and the granted total is both stored
   * and returned. A refused charge leaves every document as it was.
   */
  function Reserve(users: map<string, User>, userId: string, size: nat): (r: Reservation)
    ensures userId !in users ==> r == Reservation(Failure(UserNotFound), users)
    ensures userId in users && StoredUsage(users[userId]) + size > StorageLimit ==>
      r == Reservation(Failure(LimitExceeded), users)
    ensures r.outcome.Success? <==> userId in users && StoredUsage(users[userId]) + size <= StorageLimit
    ensures r.outcome.Success? ==>
      && r.outcome.value == StoredUsage(users[userId]) + size
      && r.users.Keys == users.Keys
      && r.users[userId] == users[userId].(usedStorageMB := Some(r.outcome.value))
      && forall id :: id in users && id != userId ==> r.users[id] == users[id]
    ensures WithinLimit(users) ==> WithinLimit(r.users)
  {
    if userId !in users then Reservation(Failure(UserNotFound), users)
    else
      var total := StoredUsage(users[userId]) + size;
      if total > StorageLimit then Reservation(Failure(LimitExceeded), users)
      else Reservation(Success(total), users[userId := users[userId].(usedStorageMB := Some(total))])
  }

  function Sum(sizes: seq<nat>): nat {
    if sizes == [] then 0 else sizes[0] + Sum(sizes[1..])
  }

  /** The user documents after one user's uploads of the given sizes, one after another. */
  function ChargeAll(users: map<string, User>, userId: string, sizes: seq<nat>): map<string, User>
    decreases |sizes|
  {
    if sizes == [] then users else ChargeAll(Reserve(users, userId, sizes[0]).users, userId, sizes[1..])
  }

  /** Uploads that fit together are all granted: the counter grows by exactly their sum. */
  lemma {:induction false} ChargeAllExact(users: map<string, User>, userId: string, sizes: seq<nat>)
    requires userId in users
    requires StoredUsage(users[userId]) + Sum(sizes) <= StorageLimit
    ensures userId in ChargeAll(users, userId, sizes)
    ensures StoredUsage(ChargeAll(users, userId, sizes)[userId]) == StoredUsage(users[userId]) + Sum(sizes)
  {
    if sizes != [] {
      var next := Reserve(users, userId, sizes[0]).users;
      assert StoredUsage(next[userId]) == StoredUsage(users[userId]) + sizes[0];
      ChargeAllExact(next, userId, sizes[1..]);
    }
  }

  /**
   * Whatever the sizes, a counter that starts within the cap stays within it and never falls, and
   * the other users' documents are not touched.
   */
  lemma {:induction false} ChargeAllBounded(users: map<string, User>, userId: string, sizes: seq<nat>)
    requires userId in users && StoredUsage(users[userId]) <= StorageLimit
    ensures ChargeAll(users, userId, sizes).Keys == users.Keys
    ensures StoredUsage(users[userId]) <= StoredUsage(ChargeAll(users, userId, sizes)[userId]) <= StorageLimit
    ensures forall id :: id in users && id != userId ==> ChargeAll(users, userId, sizes)[id] == users[id]
  {
    if sizes != [] {
      var next := Reserve(users, userId, sizes[0]).users;
      ChargeAllBounded(next, userId, sizes[1..]);
    }
  }
}
