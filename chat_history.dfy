/**
 * The chat-history store of server/utils/chatHistoryManager.py: a Redis
 * database of lists, one list per conversation under the key
 * `user_id:conversation_id`. Saving pushes one JSON record onto the head of
 * that list (LPUSH), reading returns the whole list (LRANGE 0 -1), so
 * messages come back newest first. Every Redis call may fail; the manager
 * then reports False or an empty result instead of raising.
 */
module ChatHistory {
  import opened Basics

  /** One saved message: `{"type": ..., "data": {"content": ...}, "timestamp": ...}`. */
  datatype Record = Record(messageType: string, content: string, timestamp: string)

  /** The Redis database as the manager sees it: key to list of records. */
  type Store = map<string, seq<Record>>

  predicate HasPrefix(s: string, p: string) {
    |p| <= |s| && s[..|p|] == p
  }

  /** The Redis key of one conversation, `f"{user_id}:{conversation_id}"`. */
  function Key(userId: string, conversationId: string): (k: string)
    ensures HasPrefix(k, userId + ":")
    ensures k[|userId| + 1..] == conversationId
  {
    userId + ":" + conversationId
  }

  /** Two conversations share a key only if they are the same conversation, as long as user ids hold no ':'. */
  lemma KeyInjective(u1: string, c1: string, u2: string, c2: string)
    requires ':' !in u1 && ':' !in u2
    requires Key(u1, c1) == Key(u2, c2)
    ensures u1 == u2 && c1 == c2
  {
    var k := Key(u1, c1);
    assert forall i :: 0 <= i < |u1| ==> k[i] == u1[i];
    assert forall i :: 0 <= i < |u2| ==> k[i] == u2[i];
    assert k[|u1|] == ':' && k[|u2|] == ':';
    assert |u1| == |u2|;
    assert u1 == k[..|u1|] == u2;
    assert c1 == k[|u1| + 1..] == c2;
  }

  /** A ':' inside a user id lets two different conversations share one history. */
  lemma KeysCollide()
    ensures Key("a", "b:c") == Key("a:b", "c")
  {
  }

  /** `LRANGE key 0 -1`: the whole list, or the empty list for a key never written. */
  function Messages(store: Store, key: string): (msgs: seq<Record>)
    ensures key !in store ==> msgs == []
    ensures key in store ==> msgs == store[key]
  {
    if key in store then store[key] else []
  }

  /** `LPUSH key rec`: exactly one record in front of that key's list, every other key untouched. */
  function Pushed(store: Store, key: string, rec: Record): (after: Store)
    ensures Messages(after, key) == [rec] + Messages(store, key)
    ensures forall k :: k != key ==> Messages(after, k) == Messages(store, k)
    ensures after.Keys == store.Keys + {key}
  {
    store[key := [rec] + Messages(store, key)]
  }

  /** The store after saving `recs` under `key`, oldest first. */
  function PushedAll(store: Store, key: string, recs: seq<Record>): Store
    decreases |recs|
  {
    if recs == [] then store
    else Pushed(PushedAll(store, key, recs[..|recs| - 1]), key, recs[|recs| - 1])
  }

  function Reversed<T>(s: seq<T>): (r: seq<T>)
    decreases |s|
  {
    if s == [] then [] else [s[|s| - 1]] + Reversed(s[..|s| - 1])
  }

  /** Reading after a run of saves gives the saved records newest first, before the older history. */
  lemma {:induction false} NewestFirst(store: Store, key: string, recs: seq<Record>)
    ensures Messages(PushedAll(store, key, recs), key) == Reversed(recs) + Messages(store, key)
    decreases |recs|
  {
    if recs != [] {
      NewestFirst(store, key, recs[..|recs| - 1]);
    }
  }

  /**
   * Redis KEYS pattern matching, for patterns made of '*' (any run of
   * characters), '?' (any one character) and characters that match
   * themselves.
   */
  function GlobMatch(pattern: string, s: string): (m: bool)
    ensures (forall i :: 0 <= i < |pattern| ==> pattern[i] != '*' && pattern[i] != '?') ==> (m <==> s == pattern)
    decreases |pattern| + |s|
  {
    if pattern == [] then s == []
    else if pattern[0] == '*' then GlobMatch(pattern[1..], s) || (s != [] && GlobMatch(pattern, s[1..]))
    else s != [] && (pattern[0] == '?' || pattern[0] == s[0]) && GlobMatch(pattern[1..], s[1..])
  }

  lemma {:induction false} StarMatchesAll(s: string)
    ensures GlobMatch("*", s)
    decreases |s|
  {
    if s != [] {
      StarMatchesAll(s[1..]);
    }
  }

  /** For a user id without wildcards, `KEYS user_id:*` selects exactly the keys that start with `user_id:`. */
  lemma {:induction false} PlainPatternIsPrefix(userId: string, k: string)
    requires '*' !in userId && '?' !in userId
    ensures GlobMatch(userId + ":*", k) <==> HasPrefix(k, userId + ":")
    decreases |userId|
  {
    if userId == [] {
      assert userId + ":*" == ":*" && userId + ":" == ":";
      assert ":*"[1..] == "*";
      if k != [] {
        StarMatchesAll(k[1..]);
      }
    } else {
      var p := userId + ":*";
      assert p[0] == userId[0] && p[1..] == userId[1..] + ":*";
      PlainPatternIsPrefix(userId[1..], if k == [] then k else k[1..]);
      if k != [] {
        assert (userId + ":")[1..] == userId[1..] + ":";
        assert HasPrefix(k, userId + ":") <==> k[0] == userId[0] && HasPrefix(k[1..], userId[1..] + ":");
      }
    }
  }

  /** `KEYS *:*`, the pattern built for user id "*", also lists another user's conversation. */
  lemma WildcardUserSeesOthers(store: Store)
    requires "bob:c1" in store
    ensures "bob:c1" in (set k | k in store && GlobMatch("*" + ":*", k))
    ensures !HasPrefix("bob:c1", "*" + ":")
  {
    assert "*" + ":*" == "*:*";
    StarMatchesAll("c1");
    assert GlobMatch(":*", ":c1");
    assert GlobMatch("*:*", ":c1");
    assert GlobMatch("*:*", "b:c1");
    assert GlobMatch("*:*", "ob:c1");
    assert GlobMatch("*:*", "bob:c1");
    assert "bob:c1"[..2][0] == 'b';
  }

  /** A configuration value is usable when it is neither None nor empty (`not redis_url`). */
  predicate Provided(setting: Option<string>) {
    setting.Some? && setting.value != ""
  }

  const MissingConfig := "UPSTASH_REDIS_REST_URL and UPSTASH_REDIS_REST_TOKEN must be set in the environment"

  class ChatHistoryManager {
    /** The Redis database behind the client. */
    var store: Store

    /** A client for a database that already holds `existing`. */
    constructor (existing: Store)
      ensures store == existing
    {
      store := existing;
    }

    /** `ChatHistoryManager(redis_url, redis_token)`: ValueError unless both settings are given. */
    static method Connect(url: Option<string>, token: Option<string>, existing: Store) returns (r: Result<ChatHistoryManager>)
      ensures r.Raised? <==> !Provided(url) || !Provided(token)
      ensures r.Raised? ==> r.error == ValueError(MissingConfig)
      ensures r.Ok? ==> fresh(r.value) && r.value.store == existing
    {
      if !Provided(url) || !Provided(token) {
        return Raised(ValueError(MissingConfig));
      }
      var m := new ChatHistoryManager(existing);
      r := Ok(m);
    }

    /**
     * `save_message`: one record in front of the conversation's list when
     * Redis answers (`reachable`), and True; nothing changed and False
     * otherwise. `timestamp` is the clock reading `datetime.now()` gives.
     */
    method SaveMessage(userId: string, conversationId: string, message: string, messageType: string,
                       timestamp: string, reachable: bool) returns (saved: bool)
      modifies this
      ensures saved == reachable
      ensures store == if reachable
        then Pushed(old(store), Key(userId, conversationId), Record(messageType, message, timestamp))
        else old(store)
    {
      if !reachable {
        return false;
      }
      var key := Key(userId, conversationId);
      store := Pushed(store, key, Record(messageType, message, timestamp));
      saved := true;
    }

    /** `get_all_messages`: the conversation's whole list, newest first, or [] when Redis fails. */
    method GetAllMessages(userId: string, conversationId: string, reachable: bool) returns (messages: seq<Record>)
      ensures messages == if reachable then Messages(store, Key(userId, conversationId)) else []
    {
      if !reachable {
        return [];
      }
      messages := Messages(store, Key(userId, conversationId));
    }

    /**
     * `retrieve_conversation_keys` as intended: the keys of this user's
     * conversations, or the empty set when Redis fails.
     */
    method RetrieveConversationKeys(userId: string, reachable: bool) returns (keys: set<string>)
      ensures !reachable ==> keys == {}
      ensures forall k :: k in keys ==> k in store && HasPrefix(k, userId + ":")
      ensures reachable ==> forall k :: k in store && HasPrefix(k, userId + ":") ==> k in keys
    {
      if !reachable {
        return {};
      }
      keys := set k | k in store && HasPrefix(k, userId + ":");
    }

    /** `retrieve_conversation_keys` as written: `KEYS` with the pattern `user_id:*`, the user id unescaped. */
    method RetrieveConversationKeysAsWritten(userId: string, reachable: bool) returns (keys: set<string>)
      ensures keys == if reachable then set k | k in store && GlobMatch(userId + ":*", k) else {}
    {
      if !reachable {
        return {};
      }
      keys := set k | k in store && GlobMatch(userId + ":*", k);
    }
  }

  /** For user ids without wildcards the pattern query and the intended prefix query agree. */
  lemma AsWrittenAgreesOnPlainIds(store: Store, userId: string)
    requires '*' !in userId && '?' !in userId
    ensures (set k | k in store && GlobMatch(userId + ":*", k)) == (set k | k in store && HasPrefix(k, userId + ":"))
  {
    forall k | k in store {
      PlainPatternIsPrefix(userId, k);
    }
  }
}
