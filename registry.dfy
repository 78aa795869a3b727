/** The wallet registry of bot.py: wallet.json maps a Discord user id (as a decimal string)
    to a wallet address. A Python dict keeps insertion order, and that order decides how the
    leaderboard breaks ties, so the registry is an ordered list of (user, address) pairs;
    `AsMap` is its dictionary view. */
module WalletRegistry {
  import opened Wrappers

  type UserKey = string                  // str(ctx.author.id)
  type Registry = seq<(UserKey, string)> // (user, wallet address), in dict order

  function Keys(reg: Registry): (keys: seq<UserKey>)
    ensures |keys| == |reg| && forall i :: 0 <= i < |reg| ==> keys[i] == reg[i].0
  {
    if reg == [] then [] else [reg[0].0] + Keys(reg[1..])
  }

  /** Every user appears once, as in any dict. */
  predicate DistinctKeys(reg: Registry) {
    forall i, j :: 0 <= i < j < |reg| ==> reg[i].0 != reg[j].0
  }

  /** The registry as a dictionary. */
  function AsMap(reg: Registry): (m: map<UserKey, string>)
    ensures m.Keys == set i | 0 <= i < |reg| :: reg[i].0
  {
    if reg == [] then map[]
    else AsMap(reg[1..])[reg[0].0 := reg[0].1]
  }

  /** In the dictionary every registered user maps to their own address. */
  lemma {:induction false} AsMapValues(reg: Registry)
    requires DistinctKeys(reg)
    ensures forall i :: 0 <= i < |reg| ==> AsMap(reg)[reg[i].0] == reg[i].1
  {
    if reg != [] {
      var rest := reg[1..];
      assert DistinctKeys(rest) by {
        forall i, j | 0 <= i < j < |rest| ensures rest[i].0 != rest[j].0 {
          assert rest[i] == reg[i + 1] && rest[j] == reg[j + 1];
        }
      }
      AsMapValues(rest);
      forall i | 0 <= i < |reg| ensures AsMap(reg)[reg[i].0] == reg[i].1 {
        if i > 0 {
          assert reg[i] == rest[i - 1];
          assert reg[0].0 != reg[i].0;
        }
      }
    }
  }

  /** `wallet_data[user] = wallet`: an existing user keeps their place and gets the new
      address; a new user is appended. */
  function Put(reg: Registry, user: UserKey, wallet: string): (r: Registry)
    ensures |r| == if user in Keys(reg) then |reg| else |reg| + 1
  {
    if reg == [] then [(user, wallet)]
    else if reg[0].0 == user then [(user, wallet)] + reg[1..]
    else [reg[0]] + Put(reg[1..], user, wallet)
  }

  /** After a put the user maps to the new address and every other user is unchanged. */
  lemma {:induction false} PutUpdates(reg: Registry, user: UserKey, wallet: string)
    ensures AsMap(Put(reg, user, wallet)) == AsMap(reg)[user := wallet]
  {
    if reg != [] {
      if reg[0].0 == user {
        assert ([(user, wallet)] + reg[1..])[1..] == reg[1..];
      } else {
        assert ([reg[0]] + Put(reg[1..], user, wallet))[1..] == Put(reg[1..], user, wallet);
        PutUpdates(reg[1..], user, wallet);
      }
    }
  }

  /** Putting the same user twice leaves one entry, holding the later address. */
  lemma {:induction false} PutTwice(reg: Registry, user: UserKey, first: string, second: string)
    ensures Put(Put(reg, user, first), user, second) == Put(reg, user, second)
  {
    if reg != [] && reg[0].0 != user {
      var once := Put(reg, user, first);
      assert once[0] == reg[0] && once[1..] == Put(reg[1..], user, first);
      PutTwice(reg[1..], user, first, second);
    }
  }

  /** A put keeps the order of the users: a known user stays where it was, a new one goes last. */
  lemma {:induction false} PutKeys(reg: Registry, user: UserKey, wallet: string)
    ensures Keys(Put(reg, user, wallet)) == if user in Keys(reg) then Keys(reg) else Keys(reg) + [user]
  {
    if reg != [] {
      assert Keys(reg) == [reg[0].0] + Keys(reg[1..]);
      if reg[0].0 != user {
        var r := Put(reg, user, wallet);
        assert r == [reg[0]] + Put(reg[1..], user, wallet);
        PutKeys(reg[1..], user, wallet);
        assert Keys(r) == [reg[0].0] + Keys(Put(reg[1..], user, wallet));
      } else {
        assert Keys(Put(reg, user, wallet)) == [user] + Keys(reg[1..]);
      }
    }
  }

  /** A put keeps every user unique. */
  lemma PutDistinct(reg: Registry, user: UserKey, wallet: string)
    requires DistinctKeys(reg)
    ensures DistinctKeys(Put(reg, user, wallet))
  {
    var r := Put(reg, user, wallet);
    PutKeys(reg, user, wallet);
    forall i, j | 0 <= i < j < |r| ensures r[i].0 != r[j].0 {
      assert Keys(r)[i] == r[i].0 && Keys(r)[j] == r[j].0;
      if user !in Keys(reg) && j == |reg| {
        assert Keys(reg)[i] == r[i].0;
      } else {
        assert Keys(reg)[i] == reg[i].0 && Keys(reg)[j] == reg[j].0;
      }
    }
  }

  /** What the bot reads from wallet.json; `None` is a missing or unparseable file, read as `{}`. */
  function Load(stored: Option<Registry>): (wallets: Registry)
    ensures stored.None? ==> wallets == []
    ensures stored.Some? ==> wallets == stored.value
  {
    stored.GetOr([])
  }

  /** Registering then loading returns exactly the registered address, whatever the file held. */
  lemma SetThenLoad(stored: Option<Registry>, user: UserKey, wallet: string)
    ensures user in AsMap(Load(Some(Put(Load(stored), user, wallet))))
    ensures AsMap(Load(Some(Put(Load(stored), user, wallet))))[user] == wallet
  {
    PutUpdates(Load(stored), user, wallet);
  }

  /** wallet.json. */
  class WalletFile {
    /** The parsed contents; `None` while the file is missing or not valid JSON. */
    var stored: Option<Registry>

    ghost predicate Valid()
      reads this
    {
      stored.Some? ==> DistinctKeys(stored.value)
    }

    constructor (contents: Option<Registry>)
      requires contents.Some? ==> DistinctKeys(contents.value)
      ensures Valid() && stored == contents
    {
      stored := contents;
    }

    /** load_wallets: the stored mapping, or the empty one. */
    method LoadWallets() returns (wallets: Registry)
      requires Valid()
      ensures wallets == Load(stored)
      ensures DistinctKeys(wallets)
    {
      if stored.Some? {
        wallets := stored.value;
      } else {
        wallets := [];
      }
    }

    /** set_wallet: read the file (empty if missing or unparseable), set the user's address,
        write the whole mapping back. */
    method SetWallet(user: UserKey, wallet: string)
      requires Valid()
      modifies this
      ensures Valid()
      ensures stored == Some(Put(Load(old(stored)), user, wallet))
      ensures AsMap(stored.value) == AsMap(Load(old(stored)))[user := wallet]
    {
      var walletData: Registry;
      if stored.Some? {
        walletData := stored.value;
      } else {
        walletData := [];
      }
      PutUpdates(walletData, user, wallet);
      PutDistinct(walletData, user, wallet);
      walletData := Put(walletData, user, wallet);
      stored := Some(walletData);
    }
  }
}
