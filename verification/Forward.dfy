/** Wrapping a message for a chain of mediators (`forward_wired`), the forward
    message of Aries RFC 0094, section "forward".

    Packing is a constructor: an envelope can be opened by the keys it names. */
module Forward {
  import opened Base

  const FORWARD := "https://didcomm.org/routing/1.0/forward"

  /** What is posted: an envelope, or bytes that are none. */
  datatype Wire = Envelope(recipients: seq<string>, content: Content) | Noise(bytes: int)

  /** What an envelope holds: a body this program does not read, or a message with
      the three attributes that routing looks at. */
  datatype Content = Private(body: int) | Message(kind: string, to: Option<string>, msg: Option<Wire>)

  function Layer(key: string, to: Option<string>, msg: Wire): Wire {
    Envelope([key], Message(FORWARD, to, Some(msg)))
  }

  /** `keys_map` after the first loop has come down to `n`. */
  function Successors(keys: seq<string>, n: nat): map<string, Option<string>>
    requires 1 <= n
    decreases |keys| - n
  {
    if n >= |keys| then map[] else Successors(keys, n + 1)[keys[n] := Some(keys[n - 1])]
  }

  function KeysMap(keys: seq<string>, theirVk: Option<string>): map<string, Option<string>>
    requires keys != []
  {
    Successors(keys, 1)[keys[0] := theirVk]
  }

  /** The layers of the keys from the innermost on, each with the map's value. */
  function Layers(keys: seq<string>, inner: map<string, Option<string>>, payload: Wire): Wire
    requires forall i :: 0 <= i < |keys| ==> keys[i] in inner
  {
    if keys == [] then payload
    else
      var last := |keys| - 1;
      Layer(keys[last], inner[keys[last]], Layers(keys[..last], inner, payload))
  }

  lemma {:induction false} SuccessorsCover(keys: seq<string>, n: nat)
    requires 1 <= n
    ensures forall i :: n <= i < |keys| ==> keys[i] in Successors(keys, n)
    decreases |keys| - n
  {
    if n < |keys| {
      SuccessorsCover(keys, n + 1);
    }
  }

  /** None where the program raises an IndexError: there is no key at all. */
  method ForwardWired(payload: Wire, theirVk: Option<string>, routingKeys: seq<string>) returns (r: Option<Wire>)
    ensures r.Some? <==> routingKeys != []
    ensures routingKeys != [] ==> Covers(routingKeys, theirVk) && r == Some(Wrapped(payload, theirVk, routingKeys))
  {
    if routingKeys == [] {
      return None;
    }
    var keysMap: map<string, Option<string>> := map[];
    var n := |routingKeys| - 1;
    while n > 0
      invariant 0 <= n < |routingKeys|
      invariant keysMap == Successors(routingKeys, n + 1)
    {
      keysMap := keysMap[routingKeys[n] := Some(routingKeys[n - 1])];
      n := n - 1;
    }
    keysMap := keysMap[routingKeys[0] := theirVk];
    SuccessorsCover(routingKeys, 1);
    var p := payload;
    for i := 0 to |routingKeys|
      invariant p == Layers(routingKeys[..i], keysMap, payload)
    {
      assert routingKeys[..i + 1][..i] == routingKeys[..i];
      p := Layer(routingKeys[i], keysMap[routingKeys[i]], p);
    }
    assert routingKeys[..|routingKeys|] == routingKeys;
    r := Some(p);
  }

  ghost predicate Covers(keys: seq<string>, theirVk: Option<string>) {
    keys != [] && forall i :: 0 <= i < |keys| ==> keys[i] in KeysMap(keys, theirVk)
  }

  ghost function Wrapped(payload: Wire, theirVk: Option<string>, keys: seq<string>): Wire
    requires Covers(keys, theirVk)
  {
    Layers(keys, KeysMap(keys, theirVk), payload)
  }

  lemma AlwaysCovers(keys: seq<string>, theirVk: Option<string>)
    requires keys != []
    ensures Covers(keys, theirVk)
  {
    SuccessorsCover(keys, 1);
  }

  // ----------------------------------------------------------------- peeling

  /** What a chain of mediators sees when the holder of the last key opens the
      envelope first: the `to` values in order, and what is left at the end. */
  datatype Peeled = Peeled(tos: seq<Option<string>>, rest: Wire)

  /** One mediator's opening: its key is named, and a forward message is inside. */
  function Open(w: Wire, key: string): Option<(Option<string>, Wire)> {
    if w.Envelope? && key in w.recipients && w.content.Message? && w.content.kind == FORWARD && w.content.msg.Some?
    then Some((w.content.to, w.content.msg.value))
    else None
  }

  function Peel(w: Wire, keys: seq<string>): Option<Peeled> {
    if keys == [] then Some(Peeled([], w))
    else
      var last := |keys| - 1;
      match Open(w, keys[last])
      case None => None
      case Some((to, inner)) =>
        match Peel(inner, keys[..last])
        case None => None
        case Some(p) => Some(Peeled([to] + p.tos, p.rest))
  }

  /** The next hop behind the key at position `i`. */
  function Hop(keys: seq<string>, theirVk: Option<string>, i: nat): Option<string>
    requires i < |keys|
  {
    if i == 0 then theirVk else Some(keys[i - 1])
  }

  /** The hops in the order in which they are reached. */
  function Hops(keys: seq<string>, theirVk: Option<string>, n: nat): (r: seq<Option<string>>)
    requires n <= |keys|
    ensures |r| == n
  {
    if n == 0 then [] else [Hop(keys, theirVk, n - 1)] + Hops(keys, theirVk, n - 1)
  }

  function FirstAt(keys: seq<string>, key: string): (i: nat)
    requires key in keys
    ensures i < |keys| && keys[i] == key && forall j :: 0 <= j < i ==> keys[j] != key
  {
    if keys[0] == key then 0 else 1 + FirstAt(keys[1..], key)
  }

  /** Going down, the loop leaves each key with the predecessor of its first
      occurrence from position n on. */
  lemma {:induction false} SuccessorIs(keys: seq<string>, n: nat, i: nat)
    requires 1 <= n <= i < |keys| && forall j :: n <= j < i ==> keys[j] != keys[i]
    ensures keys[i] in Successors(keys, n) && Successors(keys, n)[keys[i]] == Some(keys[i - 1])
    decreases i - n
  {
    if n < i {
      SuccessorIs(keys, n + 1, i);
    }
  }

  lemma KeysMapIs(keys: seq<string>, theirVk: Option<string>, key: string)
    requires key in keys
    ensures key in KeysMap(keys, theirVk) && KeysMap(keys, theirVk)[key] == Hop(keys, theirVk, FirstAt(keys, key))
  {
    var i := FirstAt(keys, key);
    if i > 0 {
      SuccessorIs(keys, 1, i);
    }
  }

  /** Peeling always ends at the payload; the `to` values are the map's. */
  lemma {:induction false} PeelLayers(keys: seq<string>, theirVk: Option<string>, inner: map<string, Option<string>>,
                                      payload: Wire, n: nat)
    requires n <= |keys| && forall i :: 0 <= i < |keys| ==> keys[i] in inner
    ensures var p := Peel(Layers(keys[..n], inner, payload), keys[..n]);
            && p.Some? && p.value.rest == payload && |p.value.tos| == n
            && (forall k :: 0 <= k < n ==> p.value.tos[k] == inner[keys[n - 1 - k]])
  {
    if n > 0 {
      assert keys[..n][..n - 1] == keys[..n - 1];
      PeelLayers(keys, theirVk, inner, payload, n - 1);
    }
  }

  lemma {:induction false} HopsAt(keys: seq<string>, theirVk: Option<string>, n: nat, i: nat)
    requires i < n <= |keys|
    ensures Hops(keys, theirVk, n)[n - 1 - i] == Hop(keys, theirVk, i)
  {
    if i < n - 1 {
      HopsAt(keys, theirVk, n - 1, i);
    }
  }

  /** A repeated key is harmless when its occurrences have the same next hop. */
  ghost predicate RepeatsAgree(keys: seq<string>, theirVk: Option<string>) {
    forall i, j :: 0 <= i < j < |keys| && keys[i] == keys[j] ==> Hop(keys, theirVk, i) == Hop(keys, theirVk, j)
  }

  /** The hop behind the first occurrence of the key at position i. */
  function FirstHop(keys: seq<string>, theirVk: Option<string>, i: nat): Option<string>
    requires i < |keys|
  {
    Hop(keys, theirVk, FirstAt(keys, keys[i]))
  }

  ghost predicate TosAreFirst(keys: seq<string>, theirVk: Option<string>, tos: seq<Option<string>>) {
    |tos| == |keys| && forall k :: 0 <= k < |tos| ==> tos[k] == FirstHop(keys, theirVk, |keys| - 1 - k)
  }

  lemma FirstHopAgrees(keys: seq<string>, theirVk: Option<string>, i: nat)
    requires RepeatsAgree(keys, theirVk) && i < |keys|
    ensures FirstHop(keys, theirVk, i) == Hop(keys, theirVk, i)
  {
  }

  lemma AgreeMeansHops(keys: seq<string>, theirVk: Option<string>, tos: seq<Option<string>>)
    requires TosAreFirst(keys, theirVk, tos) && RepeatsAgree(keys, theirVk)
    ensures tos == Hops(keys, theirVk, |keys|)
  {
    forall k | 0 <= k < |keys| ensures tos[k] == Hops(keys, theirVk, |keys|)[k] {
      HopsAt(keys, theirVk, |keys|, |keys| - 1 - k);
      FirstHopAgrees(keys, theirVk, |keys| - 1 - k);
    }
  }

  lemma HopsMeanAgree(keys: seq<string>, theirVk: Option<string>, i: nat, j: nat)
    requires TosAreFirst(keys, theirVk, Hops(keys, theirVk, |keys|))
    requires i < |keys| && j < |keys| && keys[i] == keys[j]
    ensures Hop(keys, theirVk, i) == Hop(keys, theirVk, j)
  {
    HopsAt(keys, theirVk, |keys|, i);
    HopsAt(keys, theirVk, |keys|, j);
  }

  lemma TosFromMap(keys: seq<string>, theirVk: Option<string>, tos: seq<Option<string>>)
    requires Covers(keys, theirVk) && |tos| == |keys|
    requires forall k :: 0 <= k < |tos| ==> tos[k] == KeysMap(keys, theirVk)[keys[|keys| - 1 - k]]
    ensures TosAreFirst(keys, theirVk, tos)
  {
    forall k | 0 <= k < |tos| ensures tos[k] == FirstHop(keys, theirVk, |keys| - 1 - k) {
      KeysMapIs(keys, theirVk, keys[|keys| - 1 - k]);
    }
  }

  lemma PeelWrapped(payload: Wire, theirVk: Option<string>, keys: seq<string>)
    requires keys != []
    ensures Covers(keys, theirVk)
    ensures var p := Peel(Wrapped(payload, theirVk, keys), keys);
            p.Some? && p.value.rest == payload && TosAreFirst(keys, theirVk, p.value.tos)
  {
    AlwaysCovers(keys, theirVk);
    assert keys[..|keys|] == keys;
    PeelLayers(keys, theirVk, KeysMap(keys, theirVk), payload, |keys|);
    TosFromMap(keys, theirVk, Peel(Wrapped(payload, theirVk, keys), keys).value.tos);
  }

  /** The round trip, on every non-empty key list: opened with kn, ..., k1 the
      wrapped message gives back the payload, and the hops on the way are
      k(n-1), ..., k1, their_vk if and only if equal keys have equal next hops. */
  lemma RoundTripIff(payload: Wire, theirVk: Option<string>, keys: seq<string>)
    requires keys != []
    ensures Covers(keys, theirVk)
    ensures var p := Peel(Wrapped(payload, theirVk, keys), keys);
            && p.Some? && p.value.rest == payload
            && (p.value.tos == Hops(keys, theirVk, |keys|) <==> RepeatsAgree(keys, theirVk))
  {
    PeelWrapped(payload, theirVk, keys);
    var tos := Peel(Wrapped(payload, theirVk, keys), keys).value.tos;
    if RepeatsAgree(keys, theirVk) {
      AgreeMeansHops(keys, theirVk, tos);
    } else if tos == Hops(keys, theirVk, |keys|) {
      var i: nat, j: nat :| i < j < |keys| && keys[i] == keys[j] && Hop(keys, theirVk, i) != Hop(keys, theirVk, j);
      HopsMeanAgree(keys, theirVk, i, j);
    }
  }

  /** With distinct keys, as routing keys are meant to be, the round trip holds. */
  lemma OnionRoundTrip(payload: Wire, theirVk: Option<string>, keys: seq<string>)
    requires keys != [] && forall i, j :: 0 <= i < j < |keys| ==> keys[i] != keys[j]
    ensures Covers(keys, theirVk)
    ensures Peel(Wrapped(payload, theirVk, keys), keys) == Some(Peeled(Hops(keys, theirVk, |keys|), payload))
  {
    RoundTripIff(payload, theirVk, keys);
  }

  /** Nobody else opens a layer: only the key it was packed for. */
  lemma OnlyTheKeyOpens(payload: Wire, theirVk: Option<string>, keys: seq<string>, other: string)
    requires keys != []
    ensures Covers(keys, theirVk)
    ensures Open(Wrapped(payload, theirVk, keys), other).Some? <==> other == keys[|keys| - 1]
  {
    AlwaysCovers(keys, theirVk);
  }
}
