/** `FrontendAPI` of `scripts/frontend-api-complete.js`: the response cache
    of `makeRequest` and the category counts of `updateCategoryCounters`.
    Its `getImageUrl` is the same mapping as `APIClient.getImageUrl`, which
    `ApiClient.GetImageUrl` models. */
module FrontendApi {
  import opened Wrappers
  import opened JsValues
  import opened Listing

  /** How long a cached response is served, in milliseconds. */
  const Ttl: int := 300000

  /** A cache entry: the parsed body and when it was stored. */
  datatype Entry = Entry(data: JsValue, timestamp: int)

  /** `${url}_${JSON.stringify(options)}`, given the serialised options. */
  function CacheKey(url: string, options: string): (r: string)
    ensures |r| == |url| + 1 + |options| && r[..|url|] == url && r[|url|] == '_'
  {
    url + "_" + options
  }

  /** The key tells requests apart: the same key means the same URL, when
      the options serialise to the same text. */
  lemma CacheKeyInjective(url1: string, url2: string, options: string)
    requires CacheKey(url1, options) == CacheKey(url2, options)
    ensures url1 == url2
  {
    assert |url1| == |url2|;
    assert url1 == CacheKey(url1, options)[..|url1|];
  }

  /** An entry stored under `key` that is younger than the time to live at `now`. */
  predicate Fresh(cache: map<string, Entry>, key: string, now: int) {
    key in cache && now - cache[key].timestamp < Ttl
  }

  /** The outcome of `makeRequest` on `cache` at `now`, where `fetched` is
      what the network gives (a parsed body, or the error of a failed or
      non-OK response) and `doneAt` the clock once it arrived: a fresh entry
      answers without fetching; otherwise a success is stored with a new
      timestamp and a failure is passed on with the cache untouched. */
  function Request(cache: map<string, Entry>, key: string, now: int, fetched: Result<JsValue, string>, doneAt: int): (out: (Result<JsValue, string>, map<string, Entry>))
    ensures Fresh(cache, key, now) ==> out == (Ok(cache[key].data), cache)
    ensures !Fresh(cache, key, now) && fetched.Ok? ==> out == (fetched, cache[key := Entry(fetched.value, doneAt)])
    ensures !Fresh(cache, key, now) && fetched.Err? ==> out == (fetched, cache)
  {
    if Fresh(cache, key, now) then (Ok(cache[key].data), cache)
    else if fetched.Ok? then (fetched, cache[key := Entry(fetched.value, doneAt)])
    else (fetched, cache)
  }

  /** Entries are never evicted: every key of the cache is still there
      after a request, and only the requested key can change. */
  lemma RequestNeverEvicts(cache: map<string, Entry>, key: string, now: int, fetched: Result<JsValue, string>, doneAt: int, other: string)
    requires other in cache
    ensures var (_, after) := Request(cache, key, now, fetched, doneAt);
      other in after && (other != key ==> after[other] == cache[other])
  {
  }

  /** A successful answer is served from the cache to a repeat of the same
      request made less than the time to live after it arrived, whatever
      the network would say then. */
  lemma RepeatServedFromCache(cache: map<string, Entry>, key: string, now: int, fetched: Result<JsValue, string>, doneAt: int,
                              later: int, again: Result<JsValue, string>, laterDone: int)
    requires fetched.Ok? && !Fresh(cache, key, now)
    requires later - doneAt < Ttl
    ensures var (_, after) := Request(cache, key, now, fetched, doneAt);
      Request(after, key, later, again, laterDone) == (fetched, after)
  {
  }

  /** A stale entry is replaced by the fresh answer. */
  lemma StaleRefetched(cache: map<string, Entry>, key: string, now: int, data: JsValue, doneAt: int)
    requires key in cache && now - cache[key].timestamp >= Ttl
    ensures Request(cache, key, now, Ok(data), doneAt).1[key] == Entry(data, doneAt)
  {
  }

  /** The client object and its `this.cache` map. */
  class Client {
    var cache: map<string, Entry>

    constructor ()
      ensures cache == map[]
    {
      cache := map[];
    }

    /** `makeRequest(url, options)`, with the serialised options. */
    method MakeRequest(url: string, options: string, now: int, fetched: Result<JsValue, string>, doneAt: int)
      returns (r: Result<JsValue, string>)
      modifies this
      ensures (r, cache) == Request(old(cache), CacheKey(url, options), now, fetched, doneAt)
    {
      var key := CacheKey(url, options);
      if key in cache && now - cache[key].timestamp < Ttl {
        return Ok(cache[key].data);
      }
      if fetched.Err? {
        return fetched;
      }
      cache := cache[key := Entry(fetched.value, doneAt)];
      return fetched;
    }
  }

  /** The five type slugs `updateCategoryCounters` counts besides 'all'. */
  const Buckets: seq<string> := ["camion-tractor", "camion-chasis", "remolques", "utilitarios", "varios"]

  predicate TypeIsAt(v: JsValue, k: string) {
    Get(v, "type") == Str(k)
  }

  function TypeIs(k: string): JsValue -> bool {
    v => TypeIsAt(v, k)
  }

  predicate Distinct(cats: seq<string>) {
    forall i, j :: 0 <= i < j < |cats| ==> cats[i] != cats[j]
  }

  /** A vehicle whose type is none of `cats`. */
  predicate UnknownAt(v: JsValue, cats: seq<string>) {
    forall k :: 0 <= k < |cats| ==> !TypeIsAt(v, cats[k])
  }

  function Unknown(cats: seq<string>): JsValue -> bool {
    v => UnknownAt(v, cats)
  }

  /** `categoryCounts` of `updateCategoryCounters`: 'all' with the number
      of vehicles, and one entry per slug with the number of vehicles of
      exactly that type. */
  function CategoryCounts(vehicles: seq<JsValue>): (counts: map<string, int>)
    ensures counts.Keys == {"all", "camion-tractor", "camion-chasis", "remolques", "utilitarios", "varios"}
    ensures counts["all"] == |vehicles|
    ensures counts["camion-tractor"] == |Keep(vehicles, TypeIs("camion-tractor"))|
    ensures counts["camion-chasis"] == |Keep(vehicles, TypeIs("camion-chasis"))|
    ensures counts["remolques"] == |Keep(vehicles, TypeIs("remolques"))|
    ensures counts["utilitarios"] == |Keep(vehicles, TypeIs("utilitarios"))|
    ensures counts["varios"] == |Keep(vehicles, TypeIs("varios"))|
  {
    map["all" := |vehicles|,
        "camion-tractor" := |Keep(vehicles, TypeIs("camion-tractor"))|,
        "camion-chasis" := |Keep(vehicles, TypeIs("camion-chasis"))|,
        "remolques" := |Keep(vehicles, TypeIs("remolques"))|,
        "utilitarios" := |Keep(vehicles, TypeIs("utilitarios"))|,
        "varios" := |Keep(vehicles, TypeIs("varios"))|]
  }

  /** Each slug's entry counts the vehicles of exactly that type. */
  lemma BucketCount(vehicles: seq<JsValue>, k: int)
    requires 0 <= k < |Buckets|
    ensures Buckets[k] in CategoryCounts(vehicles)
    ensures CategoryCounts(vehicles)[Buckets[k]] == |Keep(vehicles, TypeIs(Buckets[k]))|
  {
    if k == 0 {
      assert Buckets[k] == "camion-tractor";
    } else if k == 1 {
      assert Buckets[k] == "camion-chasis";
    } else if k == 2 {
      assert Buckets[k] == "remolques";
    } else if k == 3 {
      assert Buckets[k] == "utilitarios";
    } else {
      assert Buckets[k] == "varios";
    }
  }

  /** The counts of the categories `cats`, added up. */
  function Counted(vehicles: seq<JsValue>, cats: seq<string>): nat {
    if cats == [] then 0 else Counted(vehicles, cats[..|cats| - 1]) + |Keep(vehicles, TypeIs(cats[|cats| - 1]))|
  }

  /** One more vehicle raises the total of distinct categories by one when
      its type is among them, and by nothing otherwise. */
  lemma {:induction false} CountedSnoc(vehicles: seq<JsValue>, v: JsValue, cats: seq<string>)
    requires Distinct(cats)
    ensures Counted(vehicles + [v], cats) == Counted(vehicles, cats) + (if UnknownAt(v, cats) then 0 else 1)
    decreases |cats|
  {
    if cats != [] {
      var init, last := cats[..|cats| - 1], cats[|cats| - 1];
      assert Distinct(init) by {
        assert forall k :: 0 <= k < |init| ==> init[k] == cats[k];
      }
      CountedSnoc(vehicles, v, init);
      KeepSnoc(vehicles, TypeIs(last), v);
      UnknownSplit(v, cats);
    }
  }

  /** A type is unknown to `cats` when it is unknown to all but the last
      and is not the last; with distinct categories, the last one's type
      is unknown to the others. */
  lemma UnknownSplit(v: JsValue, cats: seq<string>)
    requires Distinct(cats) && cats != []
    ensures UnknownAt(v, cats) <==> UnknownAt(v, cats[..|cats| - 1]) && !TypeIsAt(v, cats[|cats| - 1])
    ensures TypeIsAt(v, cats[|cats| - 1]) ==> UnknownAt(v, cats[..|cats| - 1])
  {
    var init := cats[..|cats| - 1];
    assert forall k :: 0 <= k < |init| ==> init[k] == cats[k];
  }

  /** Every vehicle is counted in exactly one place besides 'all': its
      type's category, or nowhere when its type is unknown. */
  lemma {:induction false} CountsAddUp(vehicles: seq<JsValue>, cats: seq<string>)
    requires Distinct(cats)
    ensures Counted(vehicles, cats) + |Keep(vehicles, Unknown(cats))| == |vehicles|
    decreases |vehicles|
  {
    if vehicles == [] {
      ZeroCounted(cats);
    } else {
      var init := vehicles[..|vehicles| - 1];
      CountsAddUp(init, cats);
      assert vehicles == init + [vehicles[|vehicles| - 1]];
      CountedSnoc(init, vehicles[|vehicles| - 1], cats);
    }
  }

  lemma {:induction false} ZeroCounted(cats: seq<string>)
    ensures Counted([], cats) == 0
    decreases |cats|
  {
    if cats != [] {
      ZeroCounted(cats[..|cats| - 1]);
    }
  }

  /** For the five slugs: the buckets and the vehicles of other types make
      up 'all'. */
  lemma BucketsAddUp(vehicles: seq<JsValue>)
    ensures Counted(vehicles, Buckets) + |Keep(vehicles, Unknown(Buckets))| == CategoryCounts(vehicles)["all"]
  {
    assert Distinct(Buckets) by {
      forall i, j | 0 <= i < j < |Buckets| ensures Buckets[i] != Buckets[j] {
        if i == 0 && j == 1 {
          assert Buckets[0][7] == 't' && Buckets[1][7] == 'c';
        } else {
          assert Buckets[i][0] != Buckets[j][0];
        }
      }
    }
    CountsAddUp(vehicles, Buckets);
  }

  /** A vehicle of unknown type raises 'all' and no bucket. */
  lemma UnknownCountsOnlyInAll(vehicles: seq<JsValue>, v: JsValue)
    requires UnknownAt(v, Buckets)
    ensures CategoryCounts(vehicles + [v])["all"] == CategoryCounts(vehicles)["all"] + 1
    ensures forall k :: 0 <= k < |Buckets| ==> CategoryCounts(vehicles + [v])[Buckets[k]] == CategoryCounts(vehicles)[Buckets[k]]
  {
    AllCountsOneMore(vehicles, v);
    forall k | 0 <= k < |Buckets|
      ensures CategoryCounts(vehicles + [v])[Buckets[k]] == CategoryCounts(vehicles)[Buckets[k]]
    {
      UnknownSkipsBucket(vehicles, v, k);
    }
  }

  lemma AllCountsOneMore(vehicles: seq<JsValue>, v: JsValue)
    ensures CategoryCounts(vehicles + [v])["all"] == CategoryCounts(vehicles)["all"] + 1
  {
    var n := |vehicles|;
    assert |vehicles + [v]| == n + 1;
  }

  lemma UnknownSkipsBucket(vehicles: seq<JsValue>, v: JsValue, k: int)
    requires UnknownAt(v, Buckets) && 0 <= k < |Buckets|
    ensures CategoryCounts(vehicles + [v])[Buckets[k]] == CategoryCounts(vehicles)[Buckets[k]]
  {
    var cat := Buckets[k];
    assert !TypeIsAt(v, cat);
    KeepSnoc(vehicles, TypeIs(cat), v);
    BucketCount(vehicles, k);
    BucketCount(vehicles + [v], k);
  }
}
