/**
 * The logic of the `Sources` component: per-URL buffer info, "any loaded",
 * and the play / load / remove actions it sequences into the cache and the
 * session manager.  Markup, icons and the forced re-render are not part of
 * this model.
 */
module Sources {
  import opened AudioGraph
  import opened SoundBufferLoader
  import opened SoundEffect

  /** What `getBufferInfo` returns. */
  datatype BufferInfo = BufferInfo(isLoaded: bool, duration: real, sampleRate: nat, numberOfChannels: nat)

  /** `getBufferInfo`: zeros when nothing is cached for `url`, the buffer's fields otherwise. */
  function GetBufferInfo(cache: map<Url, AudioBuffer>, url: Url): (info: BufferInfo)
    ensures info.isLoaded <==> url in cache
    ensures !info.isLoaded ==> info == BufferInfo(false, 0.0, 0, 0)
    ensures info.isLoaded ==>
              && info.duration == cache[url].duration
              && info.sampleRate == cache[url].sampleRate
              && info.numberOfChannels == cache[url].numberOfChannels
  {
    if url !in cache then BufferInfo(false, 0.0, 0, 0)
    else
      var buffer := cache[url];
      BufferInfo(true, buffer.duration, buffer.sampleRate, buffer.numberOfChannels)
  }

  /** The "Status" detail of a source row. */
  function StatusLabel(info: BufferInfo): (status: string)
    ensures status == "Cached" <==> info.isLoaded
    ensures status == "Cached" || status == "Pending"
  {
    if info.isLoaded then "Cached" else "Pending"
  }

  lemma StatusLabelCached(cache: map<Url, AudioBuffer>, url: Url)
    ensures StatusLabel(GetBufferInfo(cache, url)) == "Cached" <==> url in cache
    ensures StatusLabel(GetBufferInfo(cache, url)) == "Pending" <==> url !in cache
  {
  }

  /** `isAnyAudioLoaded`: `some` over the listed URLs. */
  function IsAnyAudioLoaded(cache: map<Url, AudioBuffer>, urls: seq<Url>): (r: bool)
    ensures r <==> exists i :: 0 <= i < |urls| && urls[i] in cache
  {
    if urls == [] then false
    else
      assert forall i :: 1 <= i < |urls| ==> urls[i] == urls[1..][i - 1];
      GetBufferInfo(cache, urls[0]).isLoaded || IsAnyAudioLoaded(cache, urls[1..])
  }

  /** The `map` then `filter` of `playSoundsFromUrls`: cached buffers, in request order. */
  function BuffersFor(cache: map<Url, AudioBuffer>, urls: seq<Url>): (r: seq<AudioBuffer>)
    ensures |r| <= |urls|
    ensures forall i :: 0 <= i < |r| ==> r[i] in cache.Values
  {
    if urls == [] then []
    else (if urls[0] in cache then [cache[urls[0]]] else []) + BuffersFor(cache, urls[1..])
  }

  /** Request order is kept: the buffers for a concatenation are the concatenated buffers. */
  lemma {:induction false} BuffersForAppend(cache: map<Url, AudioBuffer>, a: seq<Url>, b: seq<Url>)
    ensures BuffersFor(cache, a + b) == BuffersFor(cache, a) + BuffersFor(cache, b)
  {
    if a == [] {
      assert a + b == b;
    } else {
      assert (a + b)[1..] == a[1..] + b;
      BuffersForAppend(cache, a[1..], b);
    }
  }

  /** With every URL cached, each one's buffer is played, in order. */
  lemma {:induction false} BuffersForAllCached(cache: map<Url, AudioBuffer>, urls: seq<Url>)
    requires forall i :: 0 <= i < |urls| ==> urls[i] in cache
    ensures |BuffersFor(cache, urls)| == |urls|
    ensures forall i :: 0 <= i < |urls| ==> BuffersFor(cache, urls)[i] == cache[urls[i]]
  {
    if urls != [] {
      assert forall i :: 1 <= i < |urls| ==> urls[i] == urls[1..][i - 1];
      BuffersForAllCached(cache, urls[1..]);
    }
  }

  /** Absent URLs are skipped silently: with none cached nothing is played. */
  lemma {:induction false} BuffersForNoneCached(cache: map<Url, AudioBuffer>, urls: seq<Url>)
    requires forall i :: 0 <= i < |urls| ==> urls[i] !in cache
    ensures BuffersFor(cache, urls) == []
  {
    if urls != [] {
      assert forall i :: 1 <= i < |urls| ==> urls[i] == urls[1..][i - 1];
      BuffersForNoneCached(cache, urls[1..]);
    }
  }

  /** The component, bound to the cache hook and to its own session manager. */
  class Sources {
    const loader: SoundBufferLoader
    const effects: SoundEffect

    constructor (loader: SoundBufferLoader, effects: SoundEffect)
      ensures this.loader == loader && this.effects == effects
    {
      this.loader := loader;
      this.effects := effects;
    }

    /** Whether a play request would get past the context checks. */
    ghost predicate CanPlay()
      reads this, effects, effects.audioContext
    {
      effects.audioContext != null && effects.audioContext.state != Closed
    }

    /** `playSoundFromUrl`: plays the cached buffer of `url`, or nothing when there is none. */
    method PlaySoundFromUrl(url: Url, startFails: SourceId -> bool)
      requires effects.Valid()
      modifies effects, effects.audioContext
      ensures effects.Valid()
      ensures url !in loader.cache ==>
                unchanged(effects) && (effects.audioContext != null ==> unchanged(effects.audioContext))
      ensures CreatedBuffers(effects.log) == CreatedBuffers(old(effects.log)) +
                (if url in loader.cache && old(CanPlay()) then [loader.cache[url]] else [])
    {
      var soundBuffer := loader.Get(url);
      if soundBuffer.None? {
        return;
      }
      effects.PlayAudioBuffer(soundBuffer.value, startFails);
    }

    /** `playSoundsFromUrls`: one play per cached URL, in request order; absent URLs are skipped. */
    method PlaySoundsFromUrls(urls: seq<Url>, startFails: SourceId -> bool)
      requires effects.Valid()
      modifies effects, effects.audioContext
      ensures effects.Valid()
      ensures CreatedBuffers(effects.log) == CreatedBuffers(old(effects.log)) +
                (if old(CanPlay()) then BuffersFor(loader.cache, urls) else [])
    {
      var audioBuffers := BuffersFor(loader.cache, urls);
      ghost var canPlay := CanPlay();
      for i := 0 to |audioBuffers|
        invariant effects.Valid()
        invariant CanPlay() == canPlay
        invariant CreatedBuffers(effects.log) == CreatedBuffers(old(effects.log)) +
                    (if canPlay then audioBuffers[..i] else [])
      {
        assert audioBuffers[..i + 1] == audioBuffers[..i] + [audioBuffers[i]];
        effects.PlayAudioBuffer(audioBuffers[i], startFails);
      }
      assert audioBuffers[..|audioBuffers|] == audioBuffers;
    }

    /** `loadAudioBuffer`: without a context nothing happens; otherwise `[url]` is loaded. */
    method LoadAudioBuffer(url: Url, fetch: Fetcher, decode: Decoder)
      modifies loader
      ensures effects.audioContext == null ==> unchanged(loader)
      ensures effects.audioContext != null ==>
                && loader.cache == AfterLoad(old(loader.cache), [url], fetch, decode)
                && loader.isLoading == (if url in old(loader.cache) then old(loader.isLoading) else false)
    {
      if effects.audioContext == null {
        return;
      }
      var fetched, _ := loader.Load([url], fetch, decode);
      assert fetched == [] <==> url in old(loader.cache);
    }

    /** `removeAudioBufferByUrl`: exactly `url` leaves the cache. */
    method RemoveAudioBufferByUrl(url: Url)
      modifies loader
      ensures loader.cache == old(loader.cache) - {url}
      ensures loader.isLoading == old(loader.isLoading)
    {
      var _ := loader.Remove([url]);
      assert (set u | u in [url]) == {url};
    }
  }
}
