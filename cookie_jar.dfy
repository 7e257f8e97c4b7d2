/** PersistentCookieJar from PersistentCookie.kt: an in-memory map from the
    exact request host to that host's cookies, mirrored into the
    "cookie_prefs" store under the key "cookies". It keys on the host string
    alone: there is no domain matching, no path matching and no ordering of
    the kind sections 5.1.3, 5.1.4 and 5.4 of RFC 6265 describe. The clock
    is a parameter (`now`), and the JSON codec of the snapshot is an
    abstract encode/decode pair. */
module CookieJar {
  import opened Common

  /** The fields SerializableCookie copies out of an okhttp Cookie. */
  datatype Cookie = Cookie(
    name: string,
    value: string,
    domain: string,
    path: string,
    expiresAt: int,
    secure: bool,
    httpOnly: bool,
    persistent: bool)

  type Host = string

  type CookieMap = map<Host, seq<Cookie>>

  /** The key the snapshot is stored under. */
  const SnapshotKey := "cookies"

  /** kotlinx.serialization for Map<String, List<SerializableCookie>>:
      `decode` is partial (None stands for a thrown exception). */
  datatype CookieCodec = CookieCodec(encode: CookieMap -> string, decode: string -> Option<CookieMap>)

  /** Decoding what was encoded gives the map back. */
  ghost predicate RoundTrips(codec: CookieCodec) {
    forall m :: codec.decode(codec.encode(m)) == Some(m)
  }

  /** The SharedPreferences file "cookie_prefs". Every jar built on the same
      context shares it. */
  class CookiePrefs {
    var entries: map<string, string>

    constructor(entries: map<string, string>)
      ensures this.entries == entries
    {
      this.entries := entries;
    }
  }

  /** What `loadCookies` finds in the store: nothing when the key is missing
      or the text does not decode. */
  function Restore(entries: map<string, string>, codec: CookieCodec): (m: CookieMap)
    ensures SnapshotKey !in entries ==> m == map[]
    ensures SnapshotKey in entries && codec.decode(entries[SnapshotKey]).None? ==> m == map[]
    ensures SnapshotKey in entries && codec.decode(entries[SnapshotKey]).Some? ==>
              m == codec.decode(entries[SnapshotKey]).value
  {
    if SnapshotKey !in entries then map[]
    else codec.decode(entries[SnapshotKey]).GetOr(map[])
  }

  /** `cookieMap[host].orEmpty()`. */
  function Lookup(m: CookieMap, host: Host): (r: seq<Cookie>)
    ensures host !in m ==> r == []
    ensures host in m ==> r == m[host]
  {
    if host in m then m[host] else []
  }

  function IsLive(now: int): Cookie -> bool {
    (c: Cookie) => c.expiresAt > now
  }

  /** The cookies of `cs` still alive at `now` (`expiresAt > now`), in stored order. */
  function Unexpired(cs: seq<Cookie>, now: int): (r: seq<Cookie>)
    ensures forall c :: c in r <==> c in cs && c.expiresAt > now
  {
    Filter(cs, IsLive(now))
  }

  /** Pruning keeps stored order: pruning two runs of cookies one after the
      other gives the pruned runs one after the other. */
  lemma UnexpiredKeepsOrder(a: seq<Cookie>, b: seq<Cookie>, now: int)
    ensures Unexpired(a + b, now) == Unexpired(a, now) + Unexpired(b, now)
  {
    FilterConcat(a, b, IsLive(now));
  }

  /** Two `loadForRequest` calls for one host with the same clock reading
      return the same list and leave the same map. */
  lemma LoadForRequestStable(m: CookieMap, host: Host, now: int)
    ensures var first := Unexpired(Lookup(m, host), now);
            var after := m[host := first];
            Unexpired(Lookup(after, host), now) == first && after[host := first] == after
  {
    FilterIdempotent(Lookup(m, host), IsLive(now));
  }

  /** What a later jar restores is the map that was persisted. */
  lemma RestorePersisted(entries: map<string, string>, codec: CookieCodec, m: CookieMap)
    requires RoundTrips(codec)
    ensures Restore(entries[SnapshotKey := codec.encode(m)], codec) == m
  {
  }

  class PersistentCookieJar {
    const prefs: CookiePrefs
    const codec: CookieCodec
    var cookieMap: CookieMap

    ghost predicate Valid() {
      RoundTrips(codec)
    }

    /** `PersistentCookieJar(context)`: starts empty, then `loadCookies()`. */
    constructor(prefs: CookiePrefs, codec: CookieCodec)
      requires RoundTrips(codec)
      ensures Valid() && this.prefs == prefs && this.codec == codec
      ensures cookieMap == Restore(prefs.entries, codec)
    {
      this.prefs := prefs;
      this.codec := codec;
      cookieMap := map[];
      new;
      LoadCookies();
    }

    /** Replaces the host's list wholesale and persists the whole map. */
    method SaveFromResponse(host: Host, cookies: seq<Cookie>)
      requires Valid()
      modifies this`cookieMap, prefs
      ensures cookieMap == old(cookieMap)[host := cookies]
      ensures forall h :: h in old(cookieMap) && h != host ==> h in cookieMap && cookieMap[h] == old(cookieMap)[h]
      ensures prefs.entries == old(prefs.entries)[SnapshotKey := codec.encode(cookieMap)]
      ensures Restore(prefs.entries, codec) == cookieMap
    {
      cookieMap := cookieMap[host := cookies];
      PersistCookies();
    }

    /** Returns the host's live cookies and writes them back under the host
      (creating an empty entry if there was none); nothing is persisted. */
    method LoadForRequest(host: Host, now: int) returns (cookies: seq<Cookie>)
      modifies this`cookieMap
      ensures cookies == Unexpired(Lookup(old(cookieMap), host), now)
      ensures forall c :: c in cookies <==> c in Lookup(old(cookieMap), host) && c.expiresAt > now
      ensures cookieMap == old(cookieMap)[host := cookies]
      ensures unchanged(prefs)
    {
      cookies := Unexpired(Lookup(cookieMap, host), now);
      cookieMap := cookieMap[host := cookies];
    }

    /** Writes the encoded map under "cookies". */
    method PersistCookies()
      modifies prefs
      ensures prefs.entries == old(prefs.entries)[SnapshotKey := codec.encode(cookieMap)]
    {
      prefs.entries := prefs.entries[SnapshotKey := codec.encode(cookieMap)];
    }

    /** `cookieMap.putAll(...)` of whatever the store yields. */
    method LoadCookies()
      modifies this`cookieMap
      ensures cookieMap == old(cookieMap) + Restore(prefs.entries, codec)
    {
      if SnapshotKey !in prefs.entries {
        return;
      }
      var decoded := codec.decode(prefs.entries[SnapshotKey]);
      if decoded.Some? {
        cookieMap := cookieMap + decoded.value;
      }
    }

    /** Removes the snapshot and empties the map. */
    method ClearCookies()
      modifies this`cookieMap, prefs
      ensures prefs.entries == old(prefs.entries) - {SnapshotKey}
      ensures cookieMap == map[]
      ensures Restore(prefs.entries, codec) == map[]
    {
      prefs.entries := prefs.entries - {SnapshotKey};
      cookieMap := map[];
    }
  }
}
