/** The key cache on the heap: what it stores and what it hands out never share memory. */
module JwksHeap {
  import opened Wrappers
  import opened Text
  import opened JwksCache
  import Encoding

  /** A map from key id to a mutable byte buffer, itself a mutable object. */
  class KeyMap {
    var entries: map<string, array<bv8>>

    constructor ()
      ensures entries == map[]
    {
      entries := map[];
    }

    ghost function Footprint(): (objects: set<object>)
      reads this
      ensures this in objects
    {
      {this} + set id | id in entries :: entries[id] as object
    }

    ghost function Contents(): Keys
      reads Footprint()
    {
      assert forall id :: id in entries ==> entries[id] as object in Footprint();
      map id | id in entries :: entries[id][..]
    }

    method Put(id: string, buffer: array<bv8>)
      modifies this
      ensures entries == old(entries)[id := buffer] && Contents() == old(Contents())[id := buffer[..]]
      ensures Footprint() <= old(Footprint()) + {buffer}
    {
      entries := entries[id := buffer];
    }
  }

  method BytesOf(raw: Secret) returns (buffer: array<bv8>)
    ensures fresh(buffer) && buffer[..] == raw
  {
    buffer := new bv8[|raw|];
    for i := 0 to |raw|
      invariant buffer[..i] == raw[..i]
    {
      buffer[i] := raw[i];
    }
    assert buffer[..] == raw[..|raw|];
  }

  method CloneEntry(src: KeyMap, out: KeyMap, id: string)
    requires id in src.entries && out !in src.Footprint()
    modifies out
    ensures fresh(out.Footprint() - old(out.Footprint())) && src.Contents() == old(src.Contents())
    ensures id in old(src.Contents()) && out.Contents() == old(out.Contents())[id := old(src.Contents())[id]]
    ensures out !in src.Footprint() && src.entries == old(src.entries)
  {
    var dup := BytesOf(src.entries[id][..]);
    out.Put(id, dup);
  }

  function Outside(keys: Keys, left: set<string>): Keys {
    map id | id in keys && id !in left :: keys[id]
  }

  lemma OutsideStep(keys: Keys, left: set<string>, id: string)
    requires id in left && id in keys
    ensures Outside(keys, left - {id}) == Outside(keys, left)[id := keys[id]]
  {
  }

  method CloneSecretMap(src: KeyMap) returns (out: KeyMap)
    ensures fresh(out.Footprint()) && out.Contents() == src.Contents()
  {
    ghost var want := src.Contents();
    assert want.Keys == src.entries.Keys;
    out := new KeyMap();
    var left := src.entries.Keys;
    assert Outside(want, left) == map[] == out.Contents();
    assert out !in src.Footprint() && out.Footprint() == {out};
    hide KeyMap.Contents, KeyMap.Footprint, Outside;
    while left != {}
      invariant left <= src.entries.Keys && fresh(out.Footprint())
      invariant out !in src.Footprint() && src.Contents() == want
      invariant out.Contents() == Outside(want, left)
      decreases left
    {
      var id :| id in left;
      OutsideStep(want, left, id);
      CloneEntry(src, out, id);
      left := left - {id};
    }
    OutsideNothing(want);
  }

  lemma OutsideNothing(keys: Keys)
    ensures Outside(keys, {}) == keys
  {
  }

  // ---------- Reading the server's answer ----------

  datatype Jwk = Jwk(kty: string, k: string, kid: string)

  /** base64url decoding, as an unknown function. */
  type Decoder = string -> Option<Secret>

  function KeyId(jwk: Jwk, i: nat): string {
    if TrimSpace(jwk.kid) == "" then "idx-" + Encoding.Itoa(i) else TrimSpace(jwk.kid)
  }

  /** Symmetric keys that decode to at least one byte are kept; a later key replaces an earlier one of the same id. */
  function AddKey(keys: Keys, jwk: Jwk, i: nat, decode: Decoder): Keys {
    if !EqualFold(jwk.kty, "oct") then keys
    else match decode(jwk.k)
      case None => keys
      case Some(raw) => if raw == [] then keys else keys[KeyId(jwk, i) := raw]
  }

  function KeysOf(jwks: seq<Jwk>, decode: Decoder): Keys {
    if jwks == [] then map[] else AddKey(KeysOf(jwks[..|jwks| - 1], decode), jwks[|jwks| - 1], |jwks| - 1, decode)
  }

  /** The server's `i`-th key is symmetric, decodes to at least one byte, and goes under this id: its own, trimmed, or
      its position when it has none. */
  predicate Provides(jwk: Jwk, i: nat, decode: Decoder, id: string) {
    && ToLower(jwk.kty) == "oct" && decode(jwk.k).Some? && decode(jwk.k).value != []
    && if TrimSpace(jwk.kid) != "" then id == TrimSpace(jwk.kid) else id == "idx-" + Encoding.Itoa(i)
  }

  /** An id has the bytes of the last of the server's keys that provides it, and no bytes when none does. */
  lemma {:induction false} KeysExactly(jwks: seq<Jwk>, decode: Decoder, id: string, raw: Secret)
    ensures id in KeysOf(jwks, decode) && KeysOf(jwks, decode)[id] == raw <==>
      exists i :: 0 <= i < |jwks| && Provides(jwks[i], i, decode, id) && decode(jwks[i].k) == Some(raw) &&
        forall j :: i < j < |jwks| ==> !Provides(jwks[j], j, decode, id)
  {
    hide AddKey, Provides;
    if jwks != [] {
      var n := |jwks| - 1;
      var front := jwks[..n];
      KeysExactly(front, decode, id, raw);
      KeyAdded(KeysOf(front, decode), jwks[n], n, decode, id);
      assert forall i :: 0 <= i < n ==> front[i] == jwks[i];
    }
  }

  lemma KeyAdded(keys: Keys, jwk: Jwk, i: nat, decode: Decoder, id: string)
    ensures var next := AddKey(keys, jwk, i, decode);
            if Provides(jwk, i, decode, id) then id in next && decode(jwk.k) == Some(next[id])
            else (id in next <==> id in keys) && (id in keys ==> next[id] == keys[id])
  {
    hide TrimSpace, ToLower;
    OctInLowerCase();
  }

  lemma OctInLowerCase()
    ensures ToLower("oct") == "oct"
  {
  }

  /** The key set a server's answer amounts to; nothing when there is no answer. */
  function FetchedKeys(fetched: Option<seq<Jwk>>, decode: Decoder): Option<Keys> {
    match fetched case None => None case Some(jwks) => Some(KeysOf(jwks, decode))
  }

  method ReadKeys(jwks: seq<Jwk>, decode: Decoder) returns (keys: KeyMap)
    ensures fresh(keys.Footprint()) && keys.Contents() == KeysOf(jwks, decode)
  {
    hide KeyId, EqualFold;
    keys := new KeyMap();
    for n := 0 to |jwks|
      invariant fresh(keys.Footprint()) && keys.Contents() == KeysOf(jwks[..n], decode)
    {
      assert jwks[..n + 1][..n] == jwks[..n];
      assert KeysOf(jwks[..n + 1], decode) == AddKey(keys.Contents(), jwks[n], n, decode);
      if !EqualFold(jwks[n].kty, "oct") {
        continue;
      }
      var raw := decode(jwks[n].k);
      if raw.None? || raw.value == [] {
        continue;
      }
      var buffer := BytesOf(raw.value);
      keys.Put(KeyId(jwks[n], n), buffer);
    }
    assert jwks[..|jwks|] == jwks;
  }

  // ---------- The cache object ----------

  class Verifier {
    const refresh: int
    var cachedAt: int
    var cachedOctHS: KeyMap?

    constructor (configured: int)
      ensures refresh == RefreshInterval(configured) && Valid() && Cached() == Cache.Empty && fresh(Footprint())
    {
      refresh := RefreshInterval(configured);
      cachedAt, cachedOctHS := 0, null;
    }

    ghost function Footprint(): (objects: set<object>)
      reads this, cachedOctHS
      ensures this in objects && (cachedOctHS != null ==> cachedOctHS in objects && cachedOctHS.Footprint() <= objects)
    {
      {this} + if cachedOctHS == null then {} else cachedOctHS.Footprint()
    }

    ghost predicate Valid()
      reads this, cachedOctHS
    {
      cachedOctHS != null ==> this !in cachedOctHS.Footprint()
    }

    /** The cache as the protocol sees it. */
    ghost function Cached(): Cache
      reads Footprint()
    {
      if cachedOctHS == null then Cache.Empty else Cache.Cached(cachedOctHS.Contents(), cachedAt)
    }

    /** The section under the read lock. */
    method TryCache(now: int) returns (out: KeyMap?)
      requires Valid()
      ensures out == null <==> Lookup(Cached(), now, refresh) == None
      ensures out != null ==> fresh(out.Footprint()) && Lookup(Cached(), now, refresh) == Some(out.Contents())
    {
      if cachedOctHS != null && cachedOctHS.entries != map[] && now - cachedAt < refresh {
        ghost var id :| id in cachedOctHS.entries;
        assert id in cachedOctHS.Contents();
        out := CloneSecretMap(cachedOctHS);
      } else {
        assert cachedOctHS != null && cachedOctHS.entries == map[] ==> cachedOctHS.Contents() == map[];
        out := null;
      }
    }

    /** The section under the write lock. A verifier is neither a key map nor a buffer, so its precondition always
        holds. */
    method Store(keys: KeyMap, now: int)
      requires this !in keys.Footprint()
      modifies this
      ensures Valid() && Cached() == Cache.Cached(keys.Contents(), now)
      ensures cachedOctHS != null && fresh(cachedOctHS.Footprint()) && keys.Contents() == old(keys.Contents())
    {
      hide KeyMap.Contents;
      ghost var was := keys.Contents();
      var copy := CloneSecretMap(keys);
      assert keys.Contents() == was && this !in copy.Footprint();
      cachedOctHS := copy;
      cachedAt := now;
    }

    /** `fetched` is the decoded answer of the server, or nothing when the request fails; `null` is the error return. */
    method LoadJwksKeys(now: int, fetched: Option<seq<Jwk>>, later: int, decode: Decoder) returns (out: KeyMap?)
      requires Valid()
      modifies this
      ensures Valid() && fresh(Footprint() - old(Footprint()))
      ensures out != null ==> fresh(out.Footprint()) && out.Footprint() !! Footprint()
      ensures var keys := FetchedKeys(fetched, decode);
              && Cached() == CacheAfter(old(Cached()), now, refresh, keys, later)
              && LoadedKeys(old(Cached()), now, refresh, keys) == if out == null then None else Some(out.Contents())
    {
      hide KeysOf;
      out := TryCache(now);
      if out != null {
        return;
      }
      if fetched.None? {
        return null;
      }
      var keys := ReadKeys(fetched.value, decode);
      if keys.entries == map[] {
        assert keys.Contents() == map[];
        return null;
      }
      assert keys.Contents() != map[] by {
        var id :| id in keys.entries;
        assert id in keys.Contents();
      }
      Store(keys, later);
      out := keys;
    }
  }

  /** A caller overwriting everything it was handed. */
  method Scribble(keys: KeyMap)
    modifies keys.Footprint()
  {
    modify keys.Footprint();
  }

  /** Whatever a caller does to a key map that loading gave it, apart from the cache, the cache keeps its contents and
      answers as before. */
  method CallerCannotReach(v: Verifier, handed: KeyMap, now: int) returns (again: KeyMap?)
    requires v.Valid() && handed.Footprint() !! v.Footprint()
    modifies handed.Footprint()
    ensures v.Valid() && v.Cached() == old(v.Cached())
    ensures again == null <==> Lookup(old(v.Cached()), now, v.refresh) == None
    ensures again != null ==> Lookup(old(v.Cached()), now, v.refresh) == Some(again.Contents())
  {
    hide KeyMap.Contents, Verifier.Footprint, Lookup;
    Scribble(handed);
    again := v.TryCache(now);
  }
}
