/** The list of pairwise connections: rows, and the metadata dicts it keeps to skip
    writes (`MediatorPairwiseList`).

    A metadata dict is an object on the heap: the list keeps a reference to the
    very dict the caller passed in. */
module PairwiseList {
  import opened Base

  type Json = int

  datatype Me = Me(did: string, verkey: string, didDoc: Option<Json>)
  datatype Their = Their(did: string, verkey: string, title: string, endpoint: string, routingKeys: seq<string>,
                         didDoc: Option<Json>)

  /** The stored form nests the endpoint. */
  datatype EndpointEntry = EndpointEntry(address: string, routingKeys: seq<string>)
  datatype TheirEntry = TheirEntry(did: string, verkey: string, title: string, endpoint: EndpointEntry,
                                   didDoc: Option<Json>)

  /** The content of a metadata dict: the two entries this program writes, and any others. */
  datatype Metadata = Metadata(me: Option<Me>, their: Option<TheirEntry>, others: map<string, Json>)

  const EMPTY := Metadata(None, None, map[])

  datatype Row = Row(theirDid: string, theirVerkey: string, myDid: string, myVerkey: string, metadata: Metadata,
                     title: string)

  function EntryOf(their: Their): TheirEntry {
    TheirEntry(their.did, their.verkey, their.title, EndpointEntry(their.endpoint, their.routingKeys), their.didDoc)
  }

  function TheirOf(e: TheirEntry): Their {
    Their(e.did, e.verkey, e.title, e.endpoint.address, e.endpoint.routingKeys, e.didDoc)
  }

  /** `metadata.update(self._build_metadata(pairwise))`. */
  function Enriched(base: Metadata, me: Me, their: Their): Metadata {
    base.(me := Some(me), their := Some(EntryOf(their)))
  }

  function RowOf(me: Me, their: Their, metadata: Metadata): Row {
    Row(their.did, their.verkey, me.did, me.verkey, metadata, their.title)
  }

  /** A pairwise by value. */
  datatype Pairwise = Pairwise(me: Me, their: Their, metadata: Metadata)

  /** `_restore_pairwise`, on metadata that has both entries. */
  function Restore(metadata: Metadata): Option<Pairwise> {
    if metadata.me.Some? && metadata.their.Some?
    then Some(Pairwise(metadata.me.value, TheirOf(metadata.their.value), metadata))
    else None
  }

  function Stored(p: Pairwise): Pairwise {
    p.(metadata := Enriched(p.metadata, p.me, p.their))
  }

  function Written(p: Pairwise): Row {
    RowOf(p.me, p.their, Enriched(p.metadata, p.me, p.their))
  }

  // ------------------------------------------------------- with fresh dicts

  /** The rows, and for each DID the content of the dict that is kept. */
  datatype State = State(rows: map<string, Row>, kept: map<string, Metadata>)

  ghost predicate Coherent(s: State) {
    && (forall d :: d in s.rows ==>
          exists p: Pairwise :: p.their.did == d && s.rows[d] == Written(p))
    && (forall d :: d in s.kept ==> d in s.rows && s.kept[d] == s.rows[d].metadata)
  }

  /** `ensure_exists` when nobody else has hold of the dict that is passed in. */
  function Ensure(s: State, p: Pairwise): State {
    var d := p.their.did;
    var md := Enriched(p.metadata, p.me, p.their);
    if d in s.rows && d in s.kept && s.kept[d] == md then s
    else State(s.rows[d := Written(p)], s.kept[d := md])
  }

  lemma EnsureWrites(s: State, p: Pairwise)
    requires Coherent(s)
    ensures Coherent(Ensure(s, p))
    ensures Ensure(s, p).rows == s.rows[p.their.did := Written(p)]
  {
  }

  function EnsureAll(s: State, ps: seq<Pairwise>): State
    decreases |ps|
  {
    if ps == [] then s else EnsureAll(Ensure(s, ps[0]), ps[1..])
  }

  /** The last pairwise given for a DID. */
  function LastGiven(ps: seq<Pairwise>, did: string): Option<Pairwise> {
    if ps == [] then None
    else
      var later := LastGiven(ps[1..], did);
      if later.Some? then later else if ps[0].their.did == did then Some(ps[0]) else None
  }

  /** Skipped writes are harmless: after any sequence of calls every row is that of
      the last pairwise given for its DID, and restoring from the row gives that
      pairwise back. */
  lemma {:induction false} LastWriteWins(s: State, ps: seq<Pairwise>, did: string)
    requires Coherent(s)
    ensures var s1 := EnsureAll(s, ps); var last := LastGiven(ps, did);
            && Coherent(s1)
            && (last.None? ==> (did in s1.rows <==> did in s.rows) && (did in s.rows ==> s1.rows[did] == s.rows[did]))
            && (last.Some? ==> did in s1.rows && s1.rows[did] == Written(last.value)
                               && Restore(s1.rows[did].metadata) == Some(Stored(last.value)))
    decreases |ps|
  {
    if ps != [] {
      EnsureWrites(s, ps[0]);
      LastWriteWins(Ensure(s, ps[0]), ps[1..], did);
      RestoreWritten(ps[0]);
    }
  }

  /** A row has the pairwise's names in its columns and the whole of it in its
      metadata, next to whatever else was there. */
  lemma RestoreWritten(p: Pairwise)
    ensures var row := Written(p);
            && row.theirDid == p.their.did && row.theirVerkey == p.their.verkey && row.title == p.their.title
            && row.myDid == p.me.did && row.myVerkey == p.me.verkey
            && row.metadata.others == p.metadata.others
    ensures Restore(Written(p).metadata) == Some(Stored(p))
    ensures Stored(p).me == p.me && Stored(p).their == p.their
    ensures Stored(Stored(p)) == Stored(p)
  {
  }

  // ------------------------------------------------------ with aliased dicts

  /** The rows after `ensure_exists`: nothing is written when the dict kept for the
      DID equals the new metadata, as it always does when they are one dict. */
  function RowsAfter(rows: map<string, Row>, kept: Option<Metadata>, aliased: bool, p: Pairwise): map<string, Row> {
    var d := p.their.did;
    if d in rows && (aliased || kept == Some(Enriched(p.metadata, p.me, p.their))) then rows else rows[d := Written(p)]
  }

  /** The call leaves the pairwise's row behind if and only if the dict that is
      passed in is not the one kept for this DID, or the row is right already. */
  lemma AliasedIff(s: State, aliased: bool, p: Pairwise)
    requires Coherent(s) && (aliased ==> p.their.did in s.rows && p.their.did in s.kept)
    ensures var d := p.their.did;
            var rows := RowsAfter(s.rows, if d in s.kept then Some(s.kept[d]) else None, aliased, p);
            && d in rows
            && (rows[d] == Written(p) <==> !aliased || s.rows[d] == Written(p))
  {
  }

  /** A caller that keeps the dict of its last call, changes the peer's verkey and
      calls again: the new verkey is never stored. */
  lemma ReusedDictLosesUpdate(p: Pairwise, verkey: string)
    requires verkey != p.their.verkey
    ensures var s := Ensure(State(map[], map[]), p);
            var q := Stored(p).(their := p.their.(verkey := verkey));
            && RowsAfter(s.rows, Some(s.kept[p.their.did]), true, q)[p.their.did].theirVerkey == p.their.verkey
            && RowsAfter(s.rows, Some(s.kept[p.their.did]), false, q)[p.their.did].theirVerkey == verkey
  {
  }

  // ------------------------------------------------------- the program's form

  /** A Python dict with metadata in it. */
  class Dict {
    var content: Metadata

    constructor (content: Metadata)
      ensures this.content == content
    {
      this.content := content;
    }
  }

  class MediatorPairwiseList {
    var rows: map<string, Row>
    var cachedMetadata: map<string, Dict>

    ghost function View(): State
      reads this, cachedMetadata.Values
    {
      State(rows, map d | d in cachedMetadata :: cachedMetadata[d].content)
    }

    constructor (rows: map<string, Row>)
      ensures this.rows == rows && cachedMetadata == map[]
    {
      this.rows, cachedMetadata := rows, map[];
    }

    /** `pairwise.metadata or {}`: an empty dict is replaced by a new one. */
    static predicate OwnDict(metadata: Dict?)
      reads metadata
    {
      metadata != null && metadata.content != EMPTY
    }

    static function ContentOf(metadata: Dict?): Metadata
      reads metadata
    {
      if metadata == null then EMPTY else metadata.content
    }

    /** The dict the caller passes is the one kept for this very DID. */
    predicate Aliased(their: Their, metadata: Dict?)
      reads this, metadata
    {
      OwnDict(metadata) && their.did in rows && their.did in cachedMetadata && cachedMetadata[their.did] == metadata
    }

    /** The content kept for a DID. */
    ghost function Kept(did: string): Option<Metadata>
      reads this, cachedMetadata.Values
    {
      if did in cachedMetadata then Some(cachedMetadata[did].content) else None
    }

    /** `ensure_exists`. With a dict that is not kept for anyone it does to the list
        what `Ensure` says. */
    method EnsureExists(me: Me, their: Their, metadata: Dict?)
      modifies this, metadata
      ensures var p := Pairwise(me, their, old(ContentOf(metadata)));
              && rows == RowsAfter(old(rows), old(Kept(their.did)), old(Aliased(their, metadata)), p)
              && (metadata == null || metadata !in old(cachedMetadata).Values ==> View() == Ensure(old(View()), p))
      ensures metadata != null ==>
                metadata.content == if old(OwnDict(metadata)) then Enriched(old(metadata.content), me, their)
                                    else old(metadata.content)
    {
      if their.did in rows {
        Update(me, their, metadata);
      } else {
        Create(me, their, metadata);
      }
    }

    method Create(me: Me, their: Their, metadata: Dict?)
      modifies this, metadata
      ensures rows == old(rows)[their.did := Written(Pairwise(me, their, old(ContentOf(metadata))))]
      ensures their.did in cachedMetadata
      ensures cachedMetadata[their.did].content == Enriched(old(ContentOf(metadata)), me, their)
      ensures cachedMetadata == old(cachedMetadata)[their.did := cachedMetadata[their.did]]
      ensures old(OwnDict(metadata)) ==> cachedMetadata[their.did] == metadata
      ensures metadata != null && !old(OwnDict(metadata)) ==> metadata.content == old(metadata.content)
    {
      var md := metadata;
      if md == null || md.content == EMPTY {
        md := new Dict(EMPTY);
      }
      md.content := Enriched(md.content, me, their);
      rows := rows[their.did := RowOf(me, their, md.content)];
      cachedMetadata := cachedMetadata[their.did := md];
    }

    method Update(me: Me, their: Their, metadata: Dict?)
      requires their.did in rows
      modifies this, metadata
      ensures old(OwnDict(metadata)) ==> metadata.content == Enriched(old(ContentOf(metadata)), me, their)
      ensures metadata != null && !old(OwnDict(metadata)) ==> metadata.content == old(metadata.content)
      ensures var md := Enriched(old(ContentOf(metadata)), me, their);
              if their.did in old(cachedMetadata)
                 && (old(Aliased(their, metadata)) || old(cachedMetadata[their.did].content) == md)
              then rows == old(rows) && cachedMetadata == old(cachedMetadata)
              else
                && rows == old(rows)[their.did := RowOf(me, their, md)]
                && their.did in cachedMetadata && cachedMetadata[their.did].content == md
                && cachedMetadata == old(cachedMetadata)[their.did := cachedMetadata[their.did]]
    {
      var md := metadata;
      if md == null || md.content == EMPTY {
        md := new Dict(EMPTY);
      }
      md.content := Enriched(md.content, me, their);
      if their.did in cachedMetadata && cachedMetadata[their.did].content == md.content {
        return;
      }
      rows := rows[their.did := RowOf(me, their, md.content)];
      cachedMetadata := cachedMetadata[their.did := md];
    }
  }
}
