/** The user-id bookkeeping and the key-shape check of the API key service.
    localStorage is a map from keys to strings; the clock reading and the
    random suffix that make up a new id are parameters. */
module ApiKeys {
  import opened Wrappers
  import opened Text

  const UserIdKey := "lettura_user_id"

  /** `user_${now}_${suffix}`: the id minted when none is stored. It is never
      empty, and after the `user_` prefix it carries the clock reading in
      decimal, then `_` and the suffix. */
  function GeneratedUserId(now: nat, suffix: string): (id: string)
    ensures id != [] && StartsWith(id, "user_")
    ensures exists k ::
      && |"user_"| < k < |id|
      && ParseDecimal(id[|"user_"|..k]) == Some(now)
      && id[k] == '_' && id[k + 1..] == suffix
  {
    var digits := DecimalString(now);
    var id := "user_" + digits + "_" + suffix;
    var k := |"user_"| + |digits|;
    DecimalRoundTrip(now);
    assert id[|"user_"|..k] == digits;
    assert id[k + 1..] == suffix;
    id
  }

  /** The stored id, when there is a non-empty one. */
  predicate HasUserId(store: map<string, string>)
  {
    UserIdKey in store && store[UserIdKey] != ""
  }

  /** A Gemini key is non-blank and starts with "AIza". */
  predicate IsValidApiKey(key: string)
    ensures IsValidApiKey(key) ==> !IsBlank(key) && StartsWith(key, "AIza")
    ensures !StartsWith(key, "AIza") ==> !IsValidApiKey(key)
  {
    BlankIffTrimEmpty(key);
    Trim(key) != [] && StartsWith(key, "AIza")
  }

  /** The non-blank test is implied by the prefix: a key is valid exactly
      when it starts with "AIza", so an empty or blank key never is. */
  lemma ValidIffPrefix(key: string)
    ensures IsValidApiKey(key) <==> StartsWith(key, "AIza")
    ensures IsBlank(key) ==> !IsValidApiKey(key)
  {
    if StartsWith(key, "AIza") {
      assert key[0] == 'A';
      NotBlankWhenFirstIsVisible(key);
    }
    BlankIffTrimEmpty(key);
  }

  class ApiKeyService {
    var store: map<string, string>

    constructor (store: map<string, string>)
      ensures this.store == store
    {
      this.store := store;
    }

    /** Get-or-create: a stored non-empty id is returned and nothing is
        written; otherwise a new id is minted, stored and returned. */
    method GetUserId(now: nat, suffix: string) returns (id: string)
      modifies this
      ensures id != "" && HasUserId(store) && store[UserIdKey] == id
      ensures HasUserId(old(store)) ==> id == old(store)[UserIdKey] && store == old(store)
      ensures !HasUserId(old(store)) ==>
        id == GeneratedUserId(now, suffix) && store == old(store)[UserIdKey := id]
    {
      if UserIdKey in store && store[UserIdKey] != "" {
        id := store[UserIdKey];
      } else {
        id := GeneratedUserId(now, suffix);
        store := store[UserIdKey := id];
      }
    }
  }

  /** Two calls in a row return the same id, and the second writes nothing. */
  method GetUserIdTwice(svc: ApiKeyService, now1: nat, suffix1: string, now2: nat, suffix2: string)
    returns (first: string, second: string)
    modifies svc
    ensures first == second
  {
    first := svc.GetUserId(now1, suffix1);
    ghost var between := svc.store;
    second := svc.GetUserId(now2, suffix2);
    assert svc.store == between;
  }
}
