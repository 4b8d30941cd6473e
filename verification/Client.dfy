/**
 The download client (src/chain/client.rs): it walks the store by hash or number in either direction, and
 fetches bodies by hash. On every store that represents a chain, the walks are slices of the block list.
 */
module Client {
  import opened Options
  import opened Primitives
  import opened Chains
  import opened Storage

  datatype Direction = Rising | Falling

  datatype HeadersRequest = HeadersRequest(start: BlockHashOrNumber, limit: nat, direction: Direction)

  // --- The walk over the store -----------------------------------------------------------------------------------

  function Next(h: Header, direction: Direction): BlockHashOrNumber {
    if direction.Falling? then ByHash(h.parentHash) else ByNumber(h.number + 1)
  }

  /** The headers met from a position on, at most `limit` of them. */
  function Walk(s: Store, at: BlockHashOrNumber, limit: nat, direction: Direction): seq<Header>
    decreases limit
  {
    var h := s.HeaderByHashOrNumber(at);
    if limit == 0 || h.None? then [] else [h.value] + Walk(s, Next(h.value, direction), limit - 1, direction)
  }

  // --- The same answer on the plain list of blocks -----------------------------------------------------------------

  function HeadersOf(blocks: seq<Block>): seq<Header> {
    seq(|blocks|, i requires 0 <= i < |blocks| => blocks[i].header)
  }

  function Reversed(hs: seq<Header>): seq<Header> {
    seq(|hs|, i requires 0 <= i < |hs| => hs[|hs| - 1 - i])
  }

  function Min(a: int, b: int): int { if a < b then a else b }

  function Max(a: int, b: int): int { if a < b then b else a }

  /** The index in the block list of the local block a request starts from. */
  ghost function StartIndex(c: Chain, start: BlockHashOrNumber): Option<nat> {
    match start
    case ByNumber(n) => if c.base.number < n <= c.Best() then Some(n - c.base.number - 1) else None
    case ByHash(hash) =>
      if i: nat :| i < |c.blocks| && HashOf(c.blocks[i].header) == hash then Some(i) else None
  }

  /** Rising from block i: blocks i, i + 1, ...; falling: blocks i, i - 1, ...; never beyond the local blocks. */
  function Slice(c: Chain, i: nat, limit: nat, direction: Direction): seq<Header>
    requires i < |c.blocks|
  {
    match direction
    case Rising => HeadersOf(c.blocks[i..Min(|c.blocks|, i + limit)])
    case Falling => Reversed(HeadersOf(c.blocks[Max(0, i + 1 - limit)..i + 1]))
  }

  ghost function HeadersAnswer(c: Chain, request: HeadersRequest): seq<Header> {
    var i := StartIndex(c, request.start);
    if i.None? then [] else Slice(c, i.value, request.limit, request.direction)
  }

  // --- Walks are slices ------------------------------------------------------------------------------------------

  lemma LookupBlock(s: Store, c: Chain, i: nat)
    requires Represents(s, c) && i < |c.blocks|
    ensures s.HeaderByHashOrNumber(ByNumber(c.base.number + i + 1)) == Some(c.blocks[i].header)
    ensures s.HeaderByHashOrNumber(ByHash(HashOf(c.blocks[i].header))) == Some(c.blocks[i].header)
    ensures c.blocks[i].header.number == c.base.number + i + 1
    ensures c.blocks[i].header.parentHash == if i == 0 then c.baseHash else HashOf(c.blocks[i - 1].header)
  {
    assert c.HeaderAt(i + 1) == c.blocks[i].header && c.HashAt(i + 1) == HashOf(c.blocks[i].header);
    assert c.LinkedAt(i);
  }

  /** The base block cannot be reached by its hash, and nothing lies beyond the tip. */
  lemma LookupOutside(s: Store, c: Chain)
    requires Represents(s, c)
    ensures s.HeaderByHashOrNumber(ByHash(c.baseHash)) == None
    ensures s.HeaderByHashOrNumber(ByNumber(c.Best() + 1)) == None
  {
    if c.baseHash in s.hashToNumber {
      var n := s.hashToNumber[c.baseHash];
      var i := n - c.base.number;
      assert s.headers[n] == c.HeaderAt(i);
      HashesDiffer(c, 0, i);
    }
  }

  lemma {:induction false} RisingWalk(s: Store, c: Chain, i: nat, limit: nat)
    requires Represents(s, c) && i <= |c.blocks|
    ensures Walk(s, ByNumber(c.base.number + i + 1), limit, Rising) == HeadersOf(c.blocks[i..Min(|c.blocks|, i + limit)])
    decreases limit
  {
    hide Represents;
    if i == |c.blocks| {
      LookupOutside(s, c);
    } else {
      LookupBlock(s, c, i);
      if limit > 0 {
        RisingWalk(s, c, i + 1, limit - 1);
        assert c.blocks[i..Min(|c.blocks|, i + limit)] == [c.blocks[i]] + c.blocks[i + 1..Min(|c.blocks|, i + limit)];
      }
    }
  }

  /** A slice header by header: as many as the limit and the local blocks allow, up or down from block i. */
  lemma SliceHeaders(c: Chain, i: nat, limit: nat, direction: Direction)
    requires i < |c.blocks|
    ensures var hs := Slice(c, i, limit, direction);
            match direction
            case Rising => |hs| == Min(limit, |c.blocks| - i) && forall k :: 0 <= k < |hs| ==> hs[k] == c.blocks[i + k].header
            case Falling => |hs| == Min(limit, i + 1) && forall k :: 0 <= k < |hs| ==> hs[k] == c.blocks[i - k].header
  {
  }

  lemma FallingSlice(c: Chain, i: nat, limit: nat)
    requires i < |c.blocks| && limit > 0
    ensures Slice(c, i, limit, Falling) == [c.blocks[i].header] + if i == 0 then [] else Slice(c, i - 1, limit - 1, Falling)
  {
    var all := Slice(c, i, limit, Falling);
    SliceHeaders(c, i, limit, Falling);
    if i > 0 {
      var rest := Slice(c, i - 1, limit - 1, Falling);
      SliceHeaders(c, i - 1, limit - 1, Falling);
      hide Slice;
      forall k | 0 < k < |all| ensures all[k] == rest[k - 1] {
      }
      assert all == [all[0]] + rest;
    }
  }

  lemma {:induction false} FallingWalk(s: Store, c: Chain, i: nat, limit: nat)
    requires Represents(s, c) && i < |c.blocks|
    ensures Walk(s, ByHash(HashOf(c.blocks[i].header)), limit, Falling) == Slice(c, i, limit, Falling)
    decreases limit
  {
    hide Represents; hide Store.HeaderByHashOrNumber;
    LookupBlock(s, c, i);
    LookupOutside(s, c);
    if limit > 0 {
      FallingSlice(c, i, limit);
      hide Slice;
      if i > 0 {
        FallingWalk(s, c, i - 1, limit - 1);
      }
    }
  }

  /** A rising walk from a hash goes on by number after its first block. */
  lemma RisingWalkByHash(s: Store, c: Chain, i: nat, limit: nat)
    requires Represents(s, c) && i < |c.blocks|
    ensures Walk(s, ByHash(HashOf(c.blocks[i].header)), limit, Rising) == Slice(c, i, limit, Rising)
  {
    LookupBlock(s, c, i);
    RisingWalk(s, c, i, limit);
    hide Represents;
    if limit > 0 {
      assert Walk(s, ByHash(HashOf(c.blocks[i].header)), limit, Rising) == Walk(s, ByNumber(c.base.number + i + 1), limit, Rising);
    }
  }

  lemma IndexedHash(s: Store, c: Chain, hash: Hash)
    requires Represents(s, c)
    ensures hash in s.hashToNumber ==> exists i: nat :: i < |c.blocks| && HashOf(c.blocks[i].header) == hash
  {
    if hash in s.hashToNumber {
      var i := s.hashToNumber[hash] - c.base.number;
      assert s.headers[s.hashToNumber[hash]] == c.HeaderAt(i);
      assert HashOf(c.blocks[i - 1].header) == hash;
    }
  }

  /** The walk from any hash, known or not, is the answer on the block list. */
  lemma WalkIsAnswer(s: Store, c: Chain, hash: Hash, limit: nat, direction: Direction)
    requires Represents(s, c)
    ensures Walk(s, ByHash(hash), limit, direction) == HeadersAnswer(c, HeadersRequest(ByHash(hash), limit, direction))
  {
    var found := StartIndex(c, ByHash(hash));
    if found.None? {
      IndexedHash(s, c, hash);
    } else {
      match direction
      case Rising => RisingWalkByHash(s, c, found.value, limit);
      case Falling => FallingWalk(s, c, found.value, limit);
    }
  }

  /** Over the same blocks, falling is the reverse of rising. */
  lemma FallingReversesRising(c: Chain, i: nat, limit: nat)
    requires i < |c.blocks| && 0 < limit <= i + 1
    ensures Slice(c, i, limit, Falling) == Reversed(Slice(c, i + 1 - limit, limit, Rising))
  {
  }

  lemma StartIndexOfBlock(c: Chain, i: nat)
    requires c.Linked() && i < |c.blocks|
    ensures StartIndex(c, ByHash(HashOf(c.blocks[i].header))) == Some(i)
    ensures StartIndex(c, ByNumber(c.blocks[i].header.number)) == Some(i)
  {
    assert c.LinkedAt(i);
    var found := StartIndex(c, ByHash(HashOf(c.blocks[i].header)));
    assert found.Some?;
    assert c.LinkedAt(found.value);
  }

  // --- Bodies ------------------------------------------------------------------------------------------------------

  /** The bodies of the hashes up to the first one that is not stored. */
  function BodiesFor(bodies: map<Hash, BlockBody>, hashes: seq<Hash>): seq<BlockBody> {
    if hashes == [] || hashes[0] !in bodies then [] else [bodies[hashes[0]]] + BodiesFor(bodies, hashes[1..])
  }

  /** The body stored under a hash: that of a local block, or the empty one of the base. */
  ghost predicate IsBodyOf(c: Chain, hash: Hash, body: BlockBody) {
    || (hash == c.baseHash && body == EMPTY_BODY)
    || exists i: nat :: i < |c.blocks| && hash == HashOf(c.blocks[i].header) && body == c.blocks[i].body
  }

  /** Exactly the base and the local blocks have bodies. */
  lemma StoredBodies(s: Store, c: Chain, hash: Hash, body: BlockBody)
    requires Represents(s, c)
    ensures IsBodyOf(c, hash, body) <==> hash in s.bodies && s.bodies[hash] == body
  {
    forall i: nat | i < |c.blocks| ensures HashOf(c.blocks[i].header) in s.bodies && s.bodies[HashOf(c.blocks[i].header)] == c.blocks[i].body {
      assert c.HashAt(i + 1) == HashOf(c.blocks[i].header);
    }
    if hash in s.bodies && hash != c.baseHash {
      IndexedHash(s, c, hash);
    }
  }

  /** Bodies come back in order for as long as the hashes are known, and not beyond the first unknown one. */
  lemma {:induction false} BodiesForLeading(bodies: map<Hash, BlockBody>, hashes: seq<Hash>)
    ensures var found := BodiesFor(bodies, hashes);
            && |found| <= |hashes|
            && (forall i :: 0 <= i < |found| ==> hashes[i] in bodies && found[i] == bodies[hashes[i]])
            && (|found| < |hashes| ==> hashes[|found|] !in bodies)
    decreases |hashes|
  {
    if hashes != [] && hashes[0] in bodies {
      BodiesForLeading(bodies, hashes[1..]);
    }
  }

  /** The bodies of the leading hashes that the chain knows, where the first hash left out is unknown to it. */
  ghost predicate AreLeadingBodies(c: Chain, hashes: seq<Hash>, bodies: seq<BlockBody>) {
    && |bodies| <= |hashes|
    && (forall i :: 0 <= i < |bodies| ==> IsBodyOf(c, hashes[i], bodies[i]))
    && (|bodies| < |hashes| ==> forall body :: !IsBodyOf(c, hashes[|bodies|], body))
  }

  lemma BodiesAnswer(s: Store, c: Chain, hashes: seq<Hash>)
    requires Represents(s, c)
    ensures AreLeadingBodies(c, hashes, BodiesFor(s.bodies, hashes))
  {
    hide Represents; hide IsBodyOf;
    BodiesForLeading(s.bodies, hashes);
    forall hash, body ensures IsBodyOf(c, hash, body) <==> hash in s.bodies && s.bodies[hash] == body {
      StoredBodies(s, c, hash, body);
    }
  }

  function HashesOf(hs: seq<Header>): seq<Hash> {
    seq(|hs|, i requires 0 <= i < |hs| => HashOf(hs[i]))
  }

  ghost predicate IsLocal(c: Chain, h: Header) {
    exists i: nat :: i < |c.blocks| && c.blocks[i].header == h
  }

  /** If every hash is that of a local block, every body comes back, in order, with matching roots. */
  lemma {:induction false} BodiesAlign(spec: ChainSpec, s: Store, c: Chain, hs: seq<Header>)
    requires Represents(s, c) && WellBuilt(spec, c)
    requires forall k :: 0 <= k < |hs| ==> IsLocal(c, hs[k])
    ensures var bodies := BodiesFor(s.bodies, HashesOf(hs));
            && |bodies| == |hs|
            && forall k :: 0 <= k < |hs| ==> Block(hs[k], bodies[k]) in c.blocks && RootsMatch(Block(hs[k], bodies[k]))
    decreases |hs|
  {
    if hs != [] {
      assert IsLocal(c, hs[0]);
      var i: nat :| i < |c.blocks| && c.blocks[i].header == hs[0];
      assert c.HashAt(i + 1) == HashOf(hs[0]) && BuiltAt(spec, c, i);
      assert HashesOf(hs)[1..] == HashesOf(hs[1..]);
      assert s.bodies[HashOf(hs[0])] == c.blocks[i].body;
      assert c.blocks[i] == Block(hs[0], c.blocks[i].body);
      hide Represents; hide WellBuilt;
      BodiesAlign(spec, s, c, hs[1..]);
      var rest := BodiesFor(s.bodies, HashesOf(hs[1..]));
      assert BodiesFor(s.bodies, HashesOf(hs)) == [c.blocks[i].body] + rest;
      forall k | 0 < k < |hs| ensures Block(hs[k], rest[k - 1]) in c.blocks && RootsMatch(Block(hs[k], rest[k - 1])) {
        assert hs[1..][k - 1] == hs[k];
      }
    }
  }

  /** For any headers request, asking for the bodies of the answered headers gives one matching body each. */
  lemma HeadersAndBodiesAlign(spec: ChainSpec, s: Store, c: Chain, request: HeadersRequest)
    requires Represents(s, c) && WellBuilt(spec, c)
    ensures var hs := HeadersAnswer(c, request);
            var bodies := BodiesFor(s.bodies, HashesOf(hs));
            && |bodies| == |hs|
            && forall k :: 0 <= k < |hs| ==> Block(hs[k], bodies[k]) in c.blocks && RootsMatch(Block(hs[k], bodies[k]))
  {
    var hs := HeadersAnswer(c, request);
    hide Represents; hide WellBuilt;
    forall k | 0 <= k < |hs| ensures IsLocal(c, hs[k]) {
      var i := StartIndex(c, request.start).value;
      var at := if request.direction.Rising? then i + k else i - k;
      assert c.blocks[at].header == hs[k];
    }
    BodiesAlign(spec, s, c, hs);
  }

  // --- The client object -------------------------------------------------------------------------------------------

  class MalachiteClient {
    const storage: StorageInner

    constructor (storage: StorageInner)
      ensures this.storage == storage
    {
      this.storage := storage;
    }

    method FetchHeaders(request: HeadersRequest) returns (headers: seq<Header>)
      requires storage.Valid()
      ensures headers == HeadersAnswer(storage.chain, request)
    {
      headers := [];
      var block;
      match request.start {
        case ByHash(hash) => block := ByHash(hash);
        case ByNumber(num) =>
          var found := storage.BlockHash(num);
          if found.None? {
            return [];
          }
          block := ByHash(found.value);
      }
      ghost var store, first := storage.View(), block;
      for i := 0 to request.limit
        invariant headers + Walk(store, block, request.limit - i, request.direction)
                  == Walk(store, first, request.limit, request.direction)
      {
        var header := storage.View().HeaderByHashOrNumber(block);
        if header.None? {
          break;
        }
        block := Next(header.value, request.direction);
        headers := headers + [header.value];
      }
      assert headers == Walk(store, first, request.limit, request.direction);
      StartResolved(storage.chain, request.start, first.hash);
      WalkIsAnswer(store, storage.chain, first.hash, request.limit, request.direction);
    }

    method FetchBodies(hashes: seq<Hash>) returns (bodies: seq<BlockBody>)
      ensures bodies == BodiesFor(storage.bodies, hashes)
      ensures |bodies| <= |hashes|
      ensures forall i :: 0 <= i < |bodies| ==> hashes[i] in storage.bodies && bodies[i] == storage.bodies[hashes[i]]
      ensures |bodies| < |hashes| ==> hashes[|bodies|] !in storage.bodies
      ensures storage.Valid() ==> AreLeadingBodies(storage.chain, hashes, bodies)
    {
      hide Represents; hide AreLeadingBodies;
      bodies := [];
      for i := 0 to |hashes|
        invariant bodies + BodiesFor(storage.bodies, hashes[i..]) == BodiesFor(storage.bodies, hashes)
      {
        assert hashes[i..][1..] == hashes[i + 1..];
        if hashes[i] !in storage.bodies {
          break;
        }
        bodies := bodies + [storage.bodies[hashes[i]]];
      }
      BodiesForLeading(storage.bodies, hashes);
      if storage.Valid() {
        BodiesAnswer(storage.View(), storage.chain, hashes);
      }
    }
  }

  /** Resolving a number to the hash found for it does not change where a request starts. */
  lemma StartResolved(c: Chain, start: BlockHashOrNumber, hash: Hash)
    requires c.Linked()
    requires start.ByHash? ==> hash == start.hash
    requires start.ByNumber? ==> c.base.number < start.number <= c.Best() && hash == c.HashAt(start.number - c.base.number)
    ensures StartIndex(c, start) == StartIndex(c, ByHash(hash))
  {
    if start.ByNumber? {
      StartIndexOfBlock(c, start.number - c.base.number - 1);
    }
  }
}
