/**
 * The `netchain_storage` ink! contract: a key-value store of strings with a
 * length limit on keys and values, a quota of new keys per caller, and a
 * global entry counter. Strings are modelled by their UTF-8 bytes.
 */
module Netchain {
  import opened Common
  import opened Ledger

  const MAX_KEY_LENGTH: nat := 128
  const MAX_VALUE_LENGTH: nat := 1024
  /** The per-user quota of the `default` constructor. */
  const DEFAULT_MAX_ENTRIES: u32 := 100

  datatype ContractError = KeyNotFound | OnlyOwner | KeyTooLong | ValueTooLong | UserLimitReached

  /** The keys charged to `user`'s quota. */
  ghost function KeysOf(creator: map<Bytes, AccountId>, user: AccountId): set<Bytes> {
    set k | k in creator && creator[k] == user
  }

  /** A new key charged to `caller` adds one key to `caller`'s set and none to anyone else's. */
  lemma NewKeyCharged(creator: map<Bytes, AccountId>, key: Bytes, caller: AccountId)
    requires key !in creator
    ensures |KeysOf(creator[key := caller], caller)| == |KeysOf(creator, caller)| + 1
    ensures forall u | u != caller :: KeysOf(creator[key := caller], u) == KeysOf(creator, u)
  {
    assert KeysOf(creator[key := caller], caller) == KeysOf(creator, caller) + {key};
  }

  function UserCount(userEntries: map<AccountId, u32>, user: AccountId): u32 {
    if user in userEntries then userEntries[user] else 0
  }

  /**
   * Each stored key is charged to one user; each user's count is the number
   * of keys charged to them and within the quota; the total counts the keys,
   * saturating at `u32::MAX`.
   */
  ghost predicate Charged(storage: map<Bytes, Bytes>, creator: map<Bytes, AccountId>,
                          userEntries: map<AccountId, u32>, maxEntries: u32, total: u32)
  {
    && creator.Keys == storage.Keys
    && (forall k | k in creator :: creator[k] in userEntries)
    && (forall u | u in userEntries :: userEntries[u] == |KeysOf(creator, u)| <= maxEntries)
    && total == SatU32(|storage|)
  }

  /** A user's count is the number of keys charged to them, also for users never counted. */
  lemma CountIsCharged(storage: map<Bytes, Bytes>, creator: map<Bytes, AccountId>,
                       userEntries: map<AccountId, u32>, maxEntries: u32, total: u32, user: AccountId)
    requires Charged(storage, creator, userEntries, maxEntries, total)
    ensures UserCount(userEntries, user) == |KeysOf(creator, user)| <= maxEntries
  {
    if user !in userEntries {
      assert KeysOf(creator, user) == {};
    }
  }

  /** Some user with a count; the one `CountSum` takes first. */
  ghost function Pick(userEntries: map<AccountId, u32>): (u: AccountId)
    requires userEntries != map[]
    ensures u in userEntries
  {
    var u :| u in userEntries; u
  }

  /** The sum of the per-user counts. */
  ghost function CountSum(userEntries: map<AccountId, u32>): nat
    decreases |userEntries|
  {
    if userEntries == map[] then 0
    else
      var u := Pick(userEntries);
      userEntries[u] + CountSum(userEntries - {u})
  }

  /**
   * When every charged key's user has a count and every count is the number
   * of keys charged to that user, the counts add up to the number of keys.
   */
  lemma {:induction false} CountSumIsKeys(creator: map<Bytes, AccountId>, userEntries: map<AccountId, u32>)
    requires forall k | k in creator :: creator[k] in userEntries
    requires forall u | u in userEntries :: userEntries[u] == |KeysOf(creator, u)|
    ensures CountSum(userEntries) == |creator|
    decreases |userEntries|
  {
    if userEntries == map[] {
      assert creator.Keys == {};
    } else {
      var u := Pick(userEntries);
      var rest := map k | k in creator && creator[k] != u :: creator[k];
      var others := userEntries - {u};
      forall v | v in others
        ensures others[v] == |KeysOf(rest, v)|
      {
        assert KeysOf(rest, v) == KeysOf(creator, v);
      }
      CountSumIsKeys(rest, others);
      assert creator.Keys == rest.Keys + KeysOf(creator, u);
      assert rest.Keys !! KeysOf(creator, u);
      assert |creator| == |creator.Keys| && |rest| == |rest.Keys|;
    }
  }

  /** The global counter is the sum of the per-user counts, as both count the stored keys. */
  lemma TotalIsCountSum(storage: map<Bytes, Bytes>, creator: map<Bytes, AccountId>,
                        userEntries: map<AccountId, u32>, maxEntries: u32, total: u32)
    requires Charged(storage, creator, userEntries, maxEntries, total)
    ensures CountSum(userEntries) == |storage| && total == SatU32(CountSum(userEntries))
  {
    CountSumIsKeys(creator, userEntries);
    assert |creator| == |creator.Keys| && |storage| == |storage.Keys|;
  }

  /** Storing a new key within the caller's quota charges it to the caller and counts it. */
  lemma NewKeyKeepsCharged(storage: map<Bytes, Bytes>, creator: map<Bytes, AccountId>,
                           userEntries: map<AccountId, u32>, maxEntries: u32, total: u32,
                           key: Bytes, value: Bytes, caller: AccountId)
    requires Charged(storage, creator, userEntries, maxEntries, total)
    requires key !in storage && UserCount(userEntries, caller) < maxEntries
    ensures Charged(storage[key := value], creator[key := caller],
                    userEntries[caller := UserCount(userEntries, caller) + 1], maxEntries, SatAdd32(total, 1))
  {
    CountIsCharged(storage, creator, userEntries, maxEntries, total, caller);
    NewKeyCharged(creator, key, caller);
    assert |storage[key := value]| == |storage| + 1;
  }

  /** Overwriting a stored key changes no count. */
  lemma OldKeyKeepsCharged(storage: map<Bytes, Bytes>, creator: map<Bytes, AccountId>,
                           userEntries: map<AccountId, u32>, maxEntries: u32, total: u32,
                           key: Bytes, value: Bytes)
    requires Charged(storage, creator, userEntries, maxEntries, total) && key in storage
    ensures Charged(storage[key := value], creator, userEntries, maxEntries, total)
  {
    assert storage[key := value].Keys == storage.Keys;
  }

  /** The contract's storage as a value. */
  datatype Store = Store(storage: map<Bytes, Bytes>, owner: Option<AccountId>, totalEntries: u32,
                         maxEntriesPerUser: u32, userEntries: map<AccountId, u32>)

  /**
   * `set` on a store: the length checks come first; a new key must fit the
   * caller's quota and is counted, an existing key is overwritten uncounted.
   */
  function SetSpec(st: Store, caller: AccountId, key: Bytes, value: Bytes): (res: (Outcome<ContractError>, Store))
    ensures res.0 == Fail(KeyTooLong) <==> |key| > MAX_KEY_LENGTH
    ensures res.0 == Fail(ValueTooLong) <==> |key| <= MAX_KEY_LENGTH && |value| > MAX_VALUE_LENGTH
    ensures res.0 == Fail(UserLimitReached) <==>
              && |key| <= MAX_KEY_LENGTH && |value| <= MAX_VALUE_LENGTH
              && key !in st.storage && UserCount(st.userEntries, caller) >= st.maxEntriesPerUser
    ensures res.0.Fail? ==> res.1 == st
    ensures res.0.Pass? ==> res.1.storage == st.storage[key := value]
    ensures res.0.Pass? && key in st.storage ==>
              res.1.totalEntries == st.totalEntries && res.1.userEntries == st.userEntries
    ensures res.0.Pass? && key !in st.storage ==>
              && res.1.userEntries == st.userEntries[caller := UserCount(st.userEntries, caller) + 1]
              && res.1.totalEntries == SatAdd32(st.totalEntries, 1)
    ensures res.1.owner == st.owner && res.1.maxEntriesPerUser == st.maxEntriesPerUser
  {
    var userCount := UserCount(st.userEntries, caller);
    if |key| > MAX_KEY_LENGTH then (Fail(KeyTooLong), st)
    else if |value| > MAX_VALUE_LENGTH then (Fail(ValueTooLong), st)
    else if key !in st.storage then
      if userCount >= st.maxEntriesPerUser then (Fail(UserLimitReached), st)
      else (Pass, st.(userEntries := st.userEntries[caller := SatAdd32(userCount, 1)],
                      totalEntries := SatAdd32(st.totalEntries, 1),
                      storage := st.storage[key := value]))
    else (Pass, st.(storage := st.storage[key := value]))
  }

  /** The charge of each stored key after `set`: a new key is charged to its caller. */
  ghost function Recharged(st: Store, creator: map<Bytes, AccountId>, caller: AccountId, key: Bytes, value: Bytes)
    : map<Bytes, AccountId>
  {
    if |key| <= MAX_KEY_LENGTH && |value| <= MAX_VALUE_LENGTH && key !in st.storage
       && UserCount(st.userEntries, caller) < st.maxEntriesPerUser
    then creator[key := caller]
    else creator
  }

  /** `set` keeps every key charged to one user, the counts and the total exact. */
  lemma SetKeepsCharged(st: Store, creator: map<Bytes, AccountId>, caller: AccountId, key: Bytes, value: Bytes,
                        after: Store, recharged: map<Bytes, AccountId>)
    requires Charged(st.storage, creator, st.userEntries, st.maxEntriesPerUser, st.totalEntries)
    requires after == SetSpec(st, caller, key, value).1
    requires recharged == Recharged(st, creator, caller, key, value)
    ensures Charged(after.storage, recharged, after.userEntries, after.maxEntriesPerUser, after.totalEntries)
  {
    var res := SetSpec(st, caller, key, value);
    if res.0.Pass? {
      if key !in st.storage {
        NewKeyKeepsCharged(st.storage, creator, st.userEntries, st.maxEntriesPerUser, st.totalEntries, key, value,
                           caller);
      } else {
        OldKeyKeepsCharged(st.storage, creator, st.userEntries, st.maxEntriesPerUser, st.totalEntries, key, value);
      }
    }
  }

  /** After a successful `set`, `get` finds the value, and every other key reads as before. */
  lemma GetAfterSet(st: Store, caller: AccountId, key: Bytes, value: Bytes, other: Bytes)
    requires SetSpec(st, caller, key, value).0.Pass?
    ensures Lookup(SetSpec(st, caller, key, value).1, key) == Ok(value)
    ensures other != key ==> Lookup(SetSpec(st, caller, key, value).1, other) == Lookup(st, other)
  {
  }

  /** `get` on a store; `GetAfterSet` relates it to `set`. */
  function Lookup(st: Store, key: Bytes): (r: Result<Bytes, ContractError>)
    ensures r.Ok? <==> key in st.storage
    ensures r.Ok? ==> r.value == st.storage[key]
    ensures r.Err? ==> r.error == KeyNotFound
  {
    if key in st.storage then Ok(st.storage[key]) else Err(KeyNotFound)
  }

  class NetchainStorage {
    var storage: map<Bytes, Bytes>
    var owner: Option<AccountId>
    var totalEntries: u32
    var maxEntriesPerUser: u32
    var userEntries: map<AccountId, u32>
    /** The caller each stored key was first set by, whose quota it uses. */
    ghost var creator: map<Bytes, AccountId>

    ghost predicate Valid()
      reads this
    {
      owner.Some? && Charged(storage, creator, userEntries, maxEntriesPerUser, totalEntries)
    }

    /** `new`: an empty store owned by the deployer. */
    constructor (maxEntries: u32, caller: AccountId)
      ensures storage == map[] && userEntries == map[] && totalEntries == 0
      ensures maxEntriesPerUser == maxEntries && owner == Some(caller)
      ensures Valid()
    {
      storage, userEntries, totalEntries := map[], map[], 0;
      maxEntriesPerUser := maxEntries;
      owner := Some(caller);
      creator := map[];
    }

    /** `default`: `new` with a quota of 100 entries per user. */
    constructor Default(caller: AccountId)
      ensures storage == map[] && userEntries == map[] && totalEntries == 0
      ensures maxEntriesPerUser == DEFAULT_MAX_ENTRIES && owner == Some(caller)
      ensures Valid()
    {
      storage, userEntries, totalEntries := map[], map[], 0;
      maxEntriesPerUser := DEFAULT_MAX_ENTRIES;
      owner := Some(caller);
      creator := map[];
    }

    function Abstract(): Store
      reads this
    {
      Store(storage, owner, totalEntries, maxEntriesPerUser, userEntries)
    }

    /** `set`, called by `caller`. */
    method Set(caller: AccountId, key: Bytes, value: Bytes) returns (r: Outcome<ContractError>)
      requires Valid()
      modifies this
      ensures (r, Abstract()) == SetSpec(old(Abstract()), caller, key, value)
      ensures Valid()
    {
      ghost var st := Abstract();
      var userCount := UserCount(userEntries, caller);
      if |key| > MAX_KEY_LENGTH {
        r := Fail(KeyTooLong);
      } else if |value| > MAX_VALUE_LENGTH {
        r := Fail(ValueTooLong);
      } else if key !in storage && userCount >= maxEntriesPerUser {
        r := Fail(UserLimitReached);
      } else {
        if key !in storage {
          userEntries := userEntries[caller := SatAdd32(userCount, 1)];
          totalEntries := SatAdd32(totalEntries, 1);
        }
        storage := storage[key := value];
        r := Pass;
      }
      creator := Recharged(st, creator, caller, key, value);
      SetKeepsCharged(st, old(creator), caller, key, value, Abstract(), creator);
    }

    /** `get`. */
    function Get(key: Bytes): (r: Result<Bytes, ContractError>)
      reads this
      ensures r == Lookup(Abstract(), key)
    {
      if key in storage then Ok(storage[key]) else Err(KeyNotFound)
    }

    /** `contains_key`: exactly the keys `get` finds. */
    function ContainsKey(key: Bytes): (b: bool)
      reads this
      ensures b <==> Get(key).Ok?
    {
      key in storage
    }

    /** `total_entries`: the number of stored keys and the sum of the per-user counts, saturated. */
    function TotalEntries(): (n: u32)
      requires Valid()
      reads this
      ensures n == SatU32(|storage|) && n == SatU32(CountSum(userEntries))
    {
      TotalIsCountSum(storage, creator, userEntries, maxEntriesPerUser, totalEntries);
      totalEntries
    }

    /** `user_entry_count`: how many stored keys `user` created, never above the quota. */
    function UserEntryCount(user: AccountId): (n: u32)
      requires Valid()
      reads this
      ensures n == |KeysOf(creator, user)| && n <= maxEntriesPerUser
    {
      CountIsCharged(storage, creator, userEntries, maxEntriesPerUser, totalEntries, user);
      UserCount(userEntries, user)
    }

    /** `max_entries_per_user`: the quota, which no user's count exceeds. */
    function MaxEntriesPerUser(): (n: u32)
      requires Valid()
      reads this
      ensures n == maxEntriesPerUser
      ensures forall u | u in userEntries :: userEntries[u] <= n
    {
      maxEntriesPerUser
    }

    /** `owner`: always the deployer. */
    function Owner(): (o: Option<AccountId>)
      requires Valid()
      reads this
      ensures o.Some?
    {
      owner
    }
  }
}
