/**
 * The decoded-buffer cache of `useSoundBufferLoader`: a map from URL to
 * decoded buffer, filled by `loadAudioBuffersFromUrls` and emptied by
 * `removeAudioBuffer` and `resetSoundBuffers`.
 *
 * Network and codec are oracles: `fetch` answers `None` when the request
 * itself rejects, and `decode` answers `None` when the bytes do not decode.
 */
module SoundBufferLoader {
  import opened AudioGraph

  /**
   * What a settled `fetch(url)` offers: the `ok` flag, the status, and the
   * body, which is `None` when reading it (`arrayBuffer()`) rejects.
   */
  datatype Response = Response(ok: bool, status: int, body: Option<seq<Byte>>)

  type Fetcher = Url -> Option<Response>
  type Decoder = seq<Byte> -> Option<AudioBuffer>

  /** The non-null entry of `results`: a URL and what it decoded to. */
  datatype Loaded = Loaded(url: Url, buffer: AudioBuffer)

  /**
   * One URL's attempt.  A rejected fetch, a non-ok response, a body that
   * cannot be read and a failed decode all end in `null`.
   */
  function Attempt(url: Url, fetch: Fetcher, decode: Decoder): (r: Option<Loaded>)
    ensures r.Some? <==>
              && fetch(url).Some? && fetch(url).value.ok && fetch(url).value.body.Some?
              && decode(fetch(url).value.body.value).Some?
    ensures r.Some? ==> r.value.url == url && r.value.buffer == decode(fetch(url).value.body.value).value
  {
    match fetch(url)
    case None => None
    case Some(response) =>
      if !response.ok then None
      else match response.body
        case None => None
        case Some(bytes) =>
          match decode(bytes)
          case None => None
          case Some(buffer) => Some(Loaded(url, buffer))
  }

  /** The URLs of the batch that are not cached yet, in order, duplicates kept. */
  function NewUrls(cache: map<Url, AudioBuffer>, urls: seq<Url>): (r: seq<Url>)
    ensures |r| <= |urls|
    ensures forall i :: 0 <= i < |r| ==> r[i] !in cache
  {
    if urls == [] then []
    else (if urls[0] in cache then [] else [urls[0]]) + NewUrls(cache, urls[1..])
  }

  /** The results of the batch, one per URL, in order. */
  function Attempts(urls: seq<Url>, fetch: Fetcher, decode: Decoder): (results: seq<Option<Loaded>>)
    ensures |results| == |urls|
    ensures forall i :: 0 <= i < |urls| ==> results[i] == Attempt(urls[i], fetch, decode)
  {
    if urls == [] then [] else [Attempt(urls[0], fetch, decode)] + Attempts(urls[1..], fetch, decode)
  }

  /** The cache after the insertion loop has visited every entry of `results`. */
  function InsertAll(cache: map<Url, AudioBuffer>, results: seq<Option<Loaded>>): map<Url, AudioBuffer>
  {
    if results == [] then cache
    else
      var before := InsertAll(cache, results[..|results| - 1]);
      match results[|results| - 1]
      case None => before
      case Some(r) => before[r.url := r.buffer]
  }

  /** The URLs of `urls` that load, each with its decoded buffer. */
  function Successes(urls: seq<Url>, fetch: Fetcher, decode: Decoder): map<Url, AudioBuffer>
  {
    map u | u in urls && Attempt(u, fetch, decode).Some? :: Attempt(u, fetch, decode).value.buffer
  }

  /** A batch that fetches nothing adds nothing. */
  lemma AfterLoadNothingNew(cache: map<Url, AudioBuffer>, urls: seq<Url>, fetch: Fetcher, decode: Decoder)
    requires NewUrls(cache, urls) == []
    ensures cache + Successes(NewUrls(cache, urls), fetch, decode) == cache
  {
    assert Successes([], fetch, decode) == map[];
  }

  /** Reference description of the cache after a load: the old cache plus every new URL that loaded. */
  function AfterLoad(cache: map<Url, AudioBuffer>, urls: seq<Url>, fetch: Fetcher, decode: Decoder): map<Url, AudioBuffer>
  {
    cache + Successes(NewUrls(cache, urls), fetch, decode)
  }

  lemma {:induction false} NewUrlsMembers(cache: map<Url, AudioBuffer>, urls: seq<Url>, u: Url)
    ensures u in NewUrls(cache, urls) <==> u in urls && u !in cache
  {
    if urls != [] {
      NewUrlsMembers(cache, urls[1..], u);
      assert urls == [urls[0]] + urls[1..];
    }
  }

  /** Duplicates within one batch are not collapsed: an uncached URL is fetched as often as it is listed. */
  lemma {:induction false} NewUrlsKeepsDuplicates(cache: map<Url, AudioBuffer>, urls: seq<Url>, u: Url)
    requires u !in cache
    ensures multiset(NewUrls(cache, urls))[u] == multiset(urls)[u]
  {
    if urls != [] {
      NewUrlsKeepsDuplicates(cache, urls[1..], u);
      assert urls == [urls[0]] + urls[1..];
    }
  }

  /** The batch is trivial exactly when every URL is cached already (the empty batch included). */
  lemma {:induction false} NewUrlsEmptyIff(cache: map<Url, AudioBuffer>, urls: seq<Url>)
    ensures NewUrls(cache, urls) == [] <==> forall i :: 0 <= i < |urls| ==> urls[i] in cache
  {
    if urls != [] {
      NewUrlsEmptyIff(cache, urls[1..]);
      assert forall i :: 1 <= i < |urls| ==> urls[i] == urls[1..][i - 1];
    }
  }

  /** Extending a batch by one URL adds that URL's success, if any. */
  lemma SuccessesSnoc(front: seq<Url>, u: Url, fetch: Fetcher, decode: Decoder)
    ensures Successes(front + [u], fetch, decode) ==
              match Attempt(u, fetch, decode)
              case None => Successes(front, fetch, decode)
              case Some(r) => Successes(front, fetch, decode)[u := r.buffer]
  {
    var urls := front + [u];
    assert forall v :: v in urls <==> v in front || v == u;
  }

  /** One more result: the insertion loop's last step. */
  lemma InsertAllSnoc(cache: map<Url, AudioBuffer>, results: seq<Option<Loaded>>, last: Option<Loaded>)
    ensures InsertAll(cache, results + [last]) ==
              match last
              case None => InsertAll(cache, results)
              case Some(r) => InsertAll(cache, results)[r.url := r.buffer]
  {
    assert (results + [last])[..|results|] == results;
  }

  /** The attempts of a batch extended by one URL end with that URL's attempt. */
  lemma AttemptsSnoc(front: seq<Url>, u: Url, fetch: Fetcher, decode: Decoder)
    ensures Attempts(front + [u], fetch, decode) == Attempts(front, fetch, decode) + [Attempt(u, fetch, decode)]
  {
  }

  // Solver step (map union with a singleton), not a property of the model.
  lemma MergeUpdate(m: map<Url, AudioBuffer>, n: map<Url, AudioBuffer>, k: Url, v: AudioBuffer)
    ensures m + n[k := v] == (m + n)[k := v]
  {
  }

  /** Inserting the results of a batch adds exactly the URLs that loaded. */
  lemma {:induction false} InsertAllAttempts(cache: map<Url, AudioBuffer>, urls: seq<Url>, fetch: Fetcher, decode: Decoder)
    ensures InsertAll(cache, Attempts(urls, fetch, decode)) == cache + Successes(urls, fetch, decode)
  {
    if urls != [] {
      var n := |urls| - 1;
      var front, u := urls[..n], urls[n];
      assert urls == front + [u];
      AttemptsSnoc(front, u, fetch, decode);
      InsertAllSnoc(cache, Attempts(front, fetch, decode), Attempt(u, fetch, decode));
      InsertAllAttempts(cache, front, fetch, decode);
      SuccessesSnoc(front, u, fetch, decode);
      match Attempt(u, fetch, decode)
      case None =>
      case Some(r) =>
        assert r.url == u;
        MergeUpdate(cache, Successes(front, fetch, decode), u, r.buffer);
    }
  }

  /**
   * What a load does to the cache: a key is cached afterwards exactly when
   * it was cached before or was requested and loaded; old entries keep
   * their buffer, new ones hold what they decoded to, and failures stay away.
   */
  lemma AfterLoadCache(cache: map<Url, AudioBuffer>, urls: seq<Url>, fetch: Fetcher, decode: Decoder, u: Url)
    ensures u in AfterLoad(cache, urls, fetch, decode) <==>
              u in cache || (u in urls && Attempt(u, fetch, decode).Some?)
    ensures u in cache ==> AfterLoad(cache, urls, fetch, decode)[u] == cache[u]
    ensures u !in cache && u in urls && Attempt(u, fetch, decode).Some? ==>
              AfterLoad(cache, urls, fetch, decode)[u] == Attempt(u, fetch, decode).value.buffer
    ensures u !in cache && Attempt(u, fetch, decode).None? ==> u !in AfterLoad(cache, urls, fetch, decode)
  {
    NewUrlsMembers(cache, urls, u);
  }

  /** A batch whose URLs are all cached already leaves the cache as it was. */
  lemma AfterLoadAllCached(cache: map<Url, AudioBuffer>, urls: seq<Url>, fetch: Fetcher, decode: Decoder)
    requires forall i :: 0 <= i < |urls| ==> urls[i] in cache
    ensures NewUrls(cache, urls) == []
    ensures AfterLoad(cache, urls, fetch, decode) == cache
  {
    NewUrlsEmptyIff(cache, urls);
  }

  /** The URLs listed in `urls`. */
  ghost function UrlSet(urls: seq<Url>): set<Url>
  {
    set u | u in urls
  }

  /** Deleting one more URL from the cache. */
  lemma RemoveStep(cache: map<Url, AudioBuffer>, urls: seq<Url>, u: Url)
    ensures UrlSet(urls + [u]) == UrlSet(urls) + {u}
    ensures cache - UrlSet(urls + [u]) == (cache - UrlSet(urls)) - {u}
  {
    assert UrlSet(urls + [u]) == UrlSet(urls) + {u};
  }

  /** `useSoundBufferLoader`: the cache behind `audioBufferMapRef` and the loading flag. */
  class SoundBufferLoader {
    var cache: map<Url, AudioBuffer>
    var isLoading: bool

    constructor ()
      ensures cache == map[] && !isLoading
    {
      cache := map[];
      isLoading := false;
    }

    /**
     * `loadAudioBuffersFromUrls`.  `fetched` lists the URLs that were
     * fetched, in order; `flagWrites` lists the values given to the loading
     * flag, in order.
     */
    method Load(urls: seq<Url>, fetch: Fetcher, decode: Decoder) returns (fetched: seq<Url>, flagWrites: seq<bool>)
      modifies this
      ensures fetched == NewUrls(old(cache), urls)
      ensures cache == AfterLoad(old(cache), urls, fetch, decode)
      ensures flagWrites == if fetched == [] then [] else [true, false]
      ensures isLoading == if fetched == [] then old(isLoading) else false
    {
      fetched, flagWrites := [], [];
      if |urls| == 0 {
        AfterLoadNothingNew(cache, urls, fetch, decode);
        return;
      }
      fetched := NewUrls(cache, urls);
      if |fetched| == 0 {
        AfterLoadNothingNew(cache, urls, fetch, decode);
        return;
      }
      isLoading := true;
      flagWrites := flagWrites + [true];
      var results := Attempts(fetched, fetch, decode);
      ghost var start := cache;
      InsertResults(results);
      InsertAllAttempts(start, fetched, fetch, decode);
      isLoading := false;
      flagWrites := flagWrites + [false];
    }

    /** The loop over the settled results: each non-null one is written into the cache. */
    method InsertResults(results: seq<Option<Loaded>>)
      modifies this`cache
      ensures cache == InsertAll(old(cache), results)
    {
      for i := 0 to |results|
        invariant cache == InsertAll(old(cache), results[..i])
      {
        assert results[..i + 1] == results[..i] + [results[i]];
        InsertAllSnoc(old(cache), results[..i], results[i]);
        match results[i]
        case None =>
        case Some(r) =>
          cache := cache[r.url := r.buffer];
      }
      assert results[..|results|] == results;
    }

    /** `getAudioBufferByUrl`: the cached buffer of `url`, if any. */
    function Get(url: Url): (r: Option<AudioBuffer>)
      reads this
      ensures r.Some? <==> url in cache
      ensures r.Some? ==> r.value == cache[url]
    {
      if url in cache then Some(cache[url]) else None
    }

    /** `resetSoundBuffers`. */
    method Clear()
      modifies this
      ensures cache == map[]
      ensures isLoading == old(isLoading)
    {
      cache := map[];
    }

    /**
     * `removeAudioBuffer`: deletes each URL in turn; entry `i` of the result
     * tells whether `urls[i]` was still present when it was deleted.
     */
    method Remove(urls: seq<Url>) returns (present: seq<bool>)
      modifies this`cache
      ensures |present| == |urls|
      ensures forall i :: 0 <= i < |urls| ==>
                present[i] == (urls[i] in old(cache) && urls[i] !in urls[..i])
      ensures cache == old(cache) - set u | u in urls
      ensures forall u :: u in urls ==> Get(u) == None
      ensures isLoading == old(isLoading)
    {
      present := [];
      for i := 0 to |urls|
        invariant |present| == i
        invariant forall j :: 0 <= j < i ==>
                    present[j] == (urls[j] in old(cache) && urls[j] !in urls[..j])
        invariant cache == old(cache) - UrlSet(urls[..i])
      {
        assert urls[..i + 1] == urls[..i] + [urls[i]];
        RemoveStep(old(cache), urls[..i], urls[i]);
        assert (urls[i] in cache) == (urls[i] in old(cache) && urls[i] !in urls[..i]);
        present := present + [urls[i] in cache];
        cache := cache - {urls[i]};
      }
      assert urls[..|urls|] == urls;
    }
  }
}
