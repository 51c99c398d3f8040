/**
 * `useAudioContext`: the single retained context behind `audioContextRef`,
 * with create-or-reuse, close-and-clear and resume-only-if-suspended.
 */
module AudioContextManager {
  import opened AudioGraph

  class AudioContextManager {
    /** `audioContextRef.current`. */
    var current: AudioContext?

    constructor ()
      ensures current == null
    {
      current := null;
    }

    /**
     * `createAudioContext`: the retained context when there is one that is
     * not closed, otherwise a fresh one, which is retained.
     * `autoplayAllowed` is the browser's choice of initial state.
     */
    method CreateAudioContext(autoplayAllowed: bool) returns (context: AudioContext)
      modifies this
      ensures old(current) != null && old(current.state) != Closed ==>
                context == old(current) && current == old(current)
      ensures old(current) == null || old(current.state) == Closed ==>
                fresh(context) && current == context &&
                context.state == (if autoplayAllowed then Running else Suspended)
      ensures current == context
    {
      if current != null && current.state != Closed {
        return current;
      }
      context := new AudioContext(autoplayAllowed);
      current := context;
    }

    /**
     * `closeAudioContext`: nothing happens without a context or with a
     * closed one; otherwise the context is closed and then forgotten.
     */
    method CloseAudioContext()
      modifies this, current
      ensures old(current) == null || old(current.state) == Closed ==>
                current == old(current) && (current != null ==> unchanged(current))
      ensures old(current) != null && old(current.state) != Closed ==>
                old(current).state == Closed && current == null
    {
      if current == null || current.state == Closed {
        return;
      }
      current.Close();
      current := null;
    }

    /** `resumeAudioContext`: only a suspended context is resumed; the reference never changes. */
    method ResumeAudioContext()
      modifies current
      ensures current == old(current)
      ensures current != null ==> current.state == AfterResume(old(current.state))
    {
      if current == null || current.state != Suspended {
        return;
      }
      current.Resume();
    }
  }

  /** Two creates without a close in between hand out the same context. */
  method CreateTwice(manager: AudioContextManager, first: bool, second: bool) returns (a: AudioContext, b: AudioContext)
    modifies manager
    ensures a == b && manager.current == a
  {
    a := manager.CreateAudioContext(first);
    b := manager.CreateAudioContext(second);
  }

  /** After a close, the next create builds a new context. */
  method CloseThenCreate(manager: AudioContextManager, autoplayAllowed: bool) returns (context: AudioContext)
    modifies manager, manager.current
    ensures fresh(context) && manager.current == context
    ensures old(manager.current) != null ==> old(manager.current).state == Closed
  {
    manager.CloseAudioContext();
    context := manager.CreateAudioContext(autoplayAllowed);
  }
}
