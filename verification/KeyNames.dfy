/** String forms of keys and addresses (`extract_key`, `ensure_is_key`,
    `change_redis_server`, and the split in `AsyncRedisChannel`). */
module KeyNames {

  /** What stands after the last separator: `split(c)[-1]`. */
  function AfterLast(s: string, c: char): string {
    if c !in s then s
    else if s[|s| - 1] == c then ""
    else AfterLast(s[..|s| - 1], c) + [s[|s| - 1]]
  }

  lemma {:induction false} AfterLastJoined(head: string, c: char, tail: string)
    requires c !in tail
    ensures AfterLast(head + [c] + tail, c) == tail
    decreases |tail|
  {
    var s := head + [c] + tail;
    assert s[|head|] == c;
    if tail != [] {
      var front := tail[..|tail| - 1];
      assert s[|s| - 1] == tail[|tail| - 1] && s[..|s| - 1] == head + [c] + front;
      AfterLastJoined(head, c, front);
      assert tail == front + [tail[|tail| - 1]];
    }
  }

  lemma {:induction false} AfterLastClean(s: string, c: char)
    ensures c !in AfterLast(s, c)
  {
    if c in s && s[|s| - 1] != c {
      AfterLastClean(s[..|s| - 1], c);
    }
  }

  lemma {:induction false} AfterLastIsTail(s: string, c: char)
    ensures |AfterLast(s, c)| <= |s| && s[|s| - |AfterLast(s, c)|..] == AfterLast(s, c)
    ensures c in s ==> |AfterLast(s, c)| < |s| && s[|s| - |AfterLast(s, c)| - 1] == c
  {
    if c in s && s[|s| - 1] != c {
      var front := s[..|s| - 1];
      assert s == front + [s[|s| - 1]];
      AfterLastIsTail(front, c);
    }
  }

  /** What `split(c)[-1]` means: the longest end of the string without the separator,
      and so the whole string if there is none. */
  lemma SplitsAtLast(s: string, c: char, tail: string)
    ensures AfterLast(s, c) == tail
            <==> c !in tail && (tail == s || exists head: string :: s == head + [c] + tail)
  {
    AfterLastClean(s, c);
    AfterLastIsTail(s, c);
    if tail == AfterLast(s, c) && c in s {
      var n := |s| - |tail| - 1;
      assert s == s[..n] + [c] + tail;
    }
    if head: string :| c !in tail && s == head + [c] + tail {
      AfterLastJoined(head, c, tail);
    }
  }

  function ExtractKey(value: string): string {
    AfterLast(value, ':')
  }

  function EnsureIsKey(value: string): string {
    "did:key:" + ExtractKey(value)
  }

  /** Both spellings of a key lead to the same bare key. */
  lemma BothSpellings(value: string)
    ensures ExtractKey(EnsureIsKey(value)) == ExtractKey(value)
    ensures EnsureIsKey(EnsureIsKey(value)) == EnsureIsKey(value)
    ensures ':' !in value ==> ExtractKey(value) == value && ExtractKey("did:key:" + value) == value
  {
    AfterLastClean(value, ':');
    AfterLastJoined("did:key", ':', ExtractKey(value));
    assert "did:key:" + ExtractKey(value) == "did:key" + [':'] + ExtractKey(value);
    SplitsAtLast(value, ':', value);
  }

  function ChangeRedisServer(pubSub: string, server: string): string {
    server + "/" + AfterLast(pubSub, '/')
  }

  /** The channel keeps its name on the new server. */
  lemma SameChannel(pubSub: string, server: string)
    ensures AfterLast(ChangeRedisServer(pubSub, server), '/') == AfterLast(pubSub, '/')
  {
    AfterLastClean(pubSub, '/');
    AfterLastJoined(server, '/', AfterLast(pubSub, '/'));
    assert server + "/" + AfterLast(pubSub, '/') == server + ['/'] + AfterLast(pubSub, '/');
  }
}
