/**
 * The playback session manager of `useSoundEffect`: the set of active
 * sources behind `activeSourcesRef`, `playAudioBuffer` and `stopAllSounds`.
 *
 * Sources are opaque ids.  The calls the manager makes into the audio graph
 * and the active set are recorded, in order, in `log`, so that orderings such
 * as "resume before start" can be stated.
 */
module SoundEffect {
  import opened AudioGraph

  type SourceId = nat

  /** One call into the audio graph or the active set. */
  datatype Effect =
    | Resumed
    | Created(source: SourceId, buffer: AudioBuffer, destination: Destination)
    | Added(source: SourceId)
    | Started(source: SourceId)
    | Stopped(source: SourceId)
    | Disconnected(source: SourceId)

  /** The buffers bound to the sources created in `log`, in order. */
  function CreatedBuffers(log: seq<Effect>): seq<AudioBuffer>
  {
    if log == [] then []
    else (if log[0].Created? then [log[0].buffer] else []) + CreatedBuffers(log[1..])
  }

  lemma {:induction false} CreatedBuffersAppend(a: seq<Effect>, b: seq<Effect>)
    ensures CreatedBuffers(a + b) == CreatedBuffers(a) + CreatedBuffers(b)
  {
    if a != [] {
      assert (a + b)[1..] == a[1..] + b;
      CreatedBuffersAppend(a[1..], b);
    } else {
      assert a + b == b;
    }
  }

  // Solver step (associativity of the trace), not a property of the model.
  lemma AppendAssoc(a: seq<Effect>, b: seq<Effect>, c: seq<Effect>)
    ensures (a + b) + c == a + (b + c)
  {
  }

  /**
   * The steps that create the source `s`, add it to the active set, start it
   * and, if `start` throws, clean it up: the source joins the set before it
   * is started.
   */
  function StartEffects(s: SourceId, buffer: AudioBuffer, destination: Destination, startFailed: bool): seq<Effect>
  {
    [Created(s, buffer, destination), Added(s), Started(s)] + (if startFailed then [Disconnected(s)] else [])
  }

  /** The calls `playAudioBuffer` makes once it gets past the context checks. */
  function PlayEffects(resumed: bool, s: SourceId, buffer: AudioBuffer, destination: Destination, startFailed: bool): seq<Effect>
  {
    (if resumed then [Resumed] else []) + StartEffects(s, buffer, destination, startFailed)
  }

  /** A play that gets past the checks creates exactly one source, bound to its buffer. */
  lemma PlayCreatesOne(resumed: bool, s: SourceId, buffer: AudioBuffer, destination: Destination, startFailed: bool)
    ensures CreatedBuffers(PlayEffects(resumed, s, buffer, destination, startFailed)) == [buffer]
  {
    var pre, mid, post := if resumed then [Resumed] else [], [Created(s, buffer, destination), Added(s), Started(s)],
                          if startFailed then [Disconnected(s)] else [];
    var created, rest := [Created(s, buffer, destination)], [Added(s), Started(s)];
    assert mid == created + rest;
    CreatedBuffersAppend(created, rest);
    assert created[1..] == [] && rest[1..][1..] == [];
    CreatedBuffersAppend(mid, post);
    CreatedBuffersAppend(pre, mid + post);
    assert pre != [] ==> pre[1..] == [];
    assert post != [] ==> post[1..] == [];
  }

  /** The source joins the active set before it is started: each `Started(s)` directly follows `Added(s)`. */
  lemma JoinsBeforeStart(resumed: bool, s: SourceId, buffer: AudioBuffer, destination: Destination, startFailed: bool)
    ensures var effects := PlayEffects(resumed, s, buffer, destination, startFailed);
            forall j :: 0 <= j < |effects| && effects[j] == Started(s) ==> 0 < j && effects[j - 1] == Added(s)
  {
    var pre, post := if resumed then [Resumed] else [], if startFailed then [Disconnected(s)] else [];
    var effects := PlayEffects(resumed, s, buffer, destination, startFailed);
    assert effects == pre + [Created(s, buffer, destination), Added(s), Started(s)] + post;
    forall j | 0 <= j < |effects| && effects[j] == Started(s)
      ensures 0 < j && effects[j - 1] == Added(s)
    {
      assert j == |pre| + 2;
    }
  }

  /** The calls `stopAllSounds` makes for the sources in the order it visits them. */
  function StopEffects(order: seq<SourceId>): (r: seq<Effect>)
    ensures |r| == 2 * |order|
    ensures forall k :: 0 <= k < |order| ==> r[2 * k] == Stopped(order[k]) && r[2 * k + 1] == Disconnected(order[k])
  {
    if order == [] then [] else [Stopped(order[0]), Disconnected(order[0])] + StopEffects(order[1..])
  }

  lemma {:induction false} StopEffectsSnoc(order: seq<SourceId>, s: SourceId)
    ensures StopEffects(order + [s]) == StopEffects(order) + [Stopped(s), Disconnected(s)]
  {
    var r, q := StopEffects(order + [s]), StopEffects(order) + [Stopped(s), Disconnected(s)];
    assert |r| == |q|;
    forall k | 0 <= k < |r|
      ensures r[k] == q[k]
    {
      var i := k / 2;
      assert k == 2 * i || k == 2 * i + 1;
      assert (order + [s])[i] == if i < |order| then order[i] else s;
    }
  }

  /** The sources listed in `order`. */
  ghost function Elements(order: seq<SourceId>): set<SourceId>
  {
    set s | s in order
  }

  /** No source is listed twice. */
  ghost predicate Distinct(order: seq<SourceId>)
  {
    forall i, j :: 0 <= i < j < |order| ==> order[i] != order[j]
  }

  /** Visiting one more, not yet visited, source. */
  lemma VisitOne(order: seq<SourceId>, s: SourceId)
    requires Distinct(order) && s !in Elements(order)
    ensures Distinct(order + [s])
    ensures Elements(order + [s]) == Elements(order) + {s}
  {
    assert forall i :: 0 <= i < |order| ==> (order + [s])[i] == order[i];
  }

  /** One `useSoundEffect` instance, bound to its context and output node. */
  class SoundEffect {
    const audioContext: AudioContext?
    const outputNode: Option<nat>
    /** `activeSourcesRef.current`. */
    var active: set<SourceId>
    /** Sources whose one-shot `ended` listener has not fired yet. */
    var listeners: set<SourceId>
    /** The id the next `createBufferSource` hands out. */
    var nextSource: SourceId
    var log: seq<Effect>

    ghost predicate Valid()
      reads this
    {
      && active <= listeners
      && forall s :: s in listeners ==> s < nextSource
    }

    constructor (audioContext: AudioContext?, outputNode: Option<nat>)
      ensures Valid()
      ensures this.audioContext == audioContext && this.outputNode == outputNode
      ensures active == {} && listeners == {} && log == []
    {
      this.audioContext := audioContext;
      this.outputNode := outputNode;
      active, listeners, nextSource, log := {}, {}, 0, [];
    }

    /** `outputNode || audioContext.destination`. */
    function Target(): (d: Destination)
      reads this
      ensures d.OutputNode? <==> outputNode.Some?
      ensures d.OutputNode? ==> d.node == outputNode.value
    {
      if outputNode.Some? then OutputNode(outputNode.value) else ContextDestination
    }

    /** The cleanup closure of the source `s`: disconnect it and forget it. */
    method Cleanup(s: SourceId)
      modifies this`active, this`log
      ensures active == old(active) - {s}
      ensures log == old(log) + [Disconnected(s)]
    {
      log := log + [Disconnected(s)];
      active := active - {s};
    }

    /**
     * `playAudioBuffer` past its context checks: create the source, bind the
     * buffer, connect it, register it and its `ended` listener, and start
     * it; if `start(0)` throws (`startFails(s)`), clean up at once.
     */
    method StartSource(buffer: AudioBuffer, startFails: SourceId -> bool) returns (source: SourceId)
      requires Valid()
      modifies this`active, this`listeners, this`nextSource, this`log
      ensures Valid()
      ensures source == old(nextSource) && nextSource == source + 1
      ensures source !in old(listeners) && listeners == old(listeners) + {source}
      ensures active == if startFails(source) then old(active) else old(active) + {source}
      ensures log == old(log) + StartEffects(source, buffer, Target(), startFails(source))
    {
      source := nextSource;
      nextSource := nextSource + 1;
      var created := [Created(source, buffer, Target())];
      log := log + created;
      active := active + {source};
      log := log + [Added(source)];
      AppendAssoc(old(log), created, [Added(source)]);
      listeners := listeners + {source};
      log := log + [Started(source)];
      ghost var mid := [Created(source, buffer, Target()), Added(source), Started(source)];
      AppendAssoc(old(log), created + [Added(source)], [Started(source)]);
      assert created + [Added(source)] + [Started(source)] == mid;
      if startFails(source) {
        Cleanup(source);
        AppendAssoc(old(log), mid, [Disconnected(source)]);
      } else {
        assert mid + [] == mid;
      }
    }

    /**
     * `playAudioBuffer`.  `startFails(s)` tells whether `start(0)` throws for
     * the source `s`.
     */
    method PlayAudioBuffer(buffer: AudioBuffer, startFails: SourceId -> bool)
      requires Valid()
      modifies this, audioContext
      ensures Valid()
      ensures audioContext == null ==>
                active == old(active) && listeners == old(listeners) &&
                nextSource == old(nextSource) && log == old(log)
      ensures audioContext != null ==> audioContext.state == AfterResume(old(audioContext.state))
      ensures audioContext != null && old(audioContext.state) == Closed ==>
                active == old(active) && listeners == old(listeners) &&
                nextSource == old(nextSource) && log == old(log)
      ensures audioContext != null && old(audioContext.state) != Closed ==>
                var s := old(nextSource);
                && nextSource == s + 1
                && s !in old(listeners)
                && listeners == old(listeners) + {s}
                && active == (if startFails(s) then old(active) else old(active) + {s})
                && log == old(log) + PlayEffects(old(audioContext.state) == Suspended, s, buffer, Target(), startFails(s))
      ensures CreatedBuffers(log) == CreatedBuffers(old(log)) +
                (if audioContext != null && old(audioContext.state) != Closed then [buffer] else [])
    {
      if audioContext == null {
        return;
      }
      ghost var resumed := audioContext.state == Suspended;
      ghost var pre: seq<Effect> := [];
      if audioContext.state == Suspended {
        audioContext.Resume();
        log := log + [Resumed];
        pre := [Resumed];
      }
      if audioContext.state == Closed {
        return;
      }
      assert log == old(log) + pre;
      var source := StartSource(buffer, startFails);
      ghost var effects := PlayEffects(resumed, source, buffer, Target(), startFails(source));
      AppendAssoc(old(log), pre, StartEffects(source, buffer, Target(), startFails(source)));
      CreatedBuffersAppend(old(log), effects);
      PlayCreatesOne(resumed, source, buffer, Target(), startFails(source));
    }

    /** The once-only `ended` event of the source `s`: its cleanup runs if still registered. */
    method OnEnded(s: SourceId)
      requires Valid()
      modifies this`active, this`listeners, this`log
      ensures Valid()
      ensures s in old(listeners) ==>
                listeners == old(listeners) - {s} && active == old(active) - {s} &&
                log == old(log) + [Disconnected(s)]
      ensures s !in old(listeners) ==>
                listeners == old(listeners) && active == old(active) && log == old(log)
    {
      if s in listeners {
        listeners := listeners - {s};
        Cleanup(s);
      }
    }

    /**
     * `stopAllSounds`: every active source is stopped and disconnected, in
     * the order `order` (ghost, since a set's iteration order is not
     * modelled), and the set is emptied.  The `ended` listeners stay
     * registered: clearing `onended` does not remove them.
     */
    method StopAllSounds() returns (ghost order: seq<SourceId>)
      requires Valid()
      modifies this`active, this`log
      ensures Valid()
      ensures active == {}
      ensures Elements(order) == old(active)
      ensures Distinct(order)
      ensures log == old(log) + StopEffects(order)
    {
      order := [];
      var remaining := active;
      while remaining != {}
        invariant Elements(order) + remaining == old(active)
        invariant Elements(order) !! remaining
        invariant Distinct(order)
        invariant log == old(log) + StopEffects(order)
        invariant active == old(active) && listeners == old(listeners)
        decreases remaining
      {
        var s :| s in remaining;
        VisitOne(order, s);
        StopEffectsSnoc(order, s);
        AppendAssoc(old(log), StopEffects(order), [Stopped(s), Disconnected(s)]);
        log := log + [Stopped(s), Disconnected(s)];
        order := order + [s];
        remaining := remaining - {s};
      }
      active := {};
    }
  }
}
