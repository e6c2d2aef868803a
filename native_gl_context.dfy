/**
 * `NativeGLContext` over EGL: a display, a surface and a context it either owns or, when
 * `weak`, only observes. Creation retries once with client version 3 when sharing fails,
 * binding and unbinding are no-ops when there is nothing to do, and dropping an owning
 * context destroys its surface and then its context.
 *
 * The EGL function table the source keeps in each context is the `Egl` world object that
 * the operations here take and change.
 */
module NativeContext {
  import opened Wrappers
  import opened EglWorld

  newtype u8 = x: int | 0 <= x < 256

  datatype NativeGLContext = NativeGLContext(
    display: EGLDisplay,
    surface: EGLSurface,
    context: EGLContext,
    weak: bool)

  /** The transferable, non-owning handle: its first position holds the context and its
      second the display. */
  datatype NativeGLContextHandle = NativeGLContextHandle(context: EGLContext, display: EGLDisplay)

  const CREATE_ERROR := "Error creating an EGL context"
  const MAKE_CURRENT_ERROR := "egl::MakeCurrent"
  const UNBIND_ERROR := "egl::MakeCurrent (on unbind)"

  /** The context `eglCreateContext` is asked to share with: the given one, or none. */
  function SharedContext(share: Option<EGLContext>): (r: EGLContext)
    ensures share.Some? ==> r == share.value
    ensures share.None? ==> r == NO_CONTEXT
  {
    match share
    case Some(ctx) => ctx
    case None => NO_CONTEXT
  }

  /** The driver workaround applies: sharing was asked for, the first attempt failed and it
      did not already ask for version 3. */
  predicate RetriesWithVersion3(share: Option<EGLContext>, first: EGLContext, clientVersion: u8) {
    share.Some? && first == NO_CONTEXT && clientVersion != 3
  }

  /** The `eglCreateContext` calls `new` makes, given what each attempt returned. */
  ghost function CreationCalls(display: EGLDisplay, config: EGLConfig, share: Option<EGLContext>,
                               clientVersion: u8, attempts: seq<EGLContext>): seq<Call>
    requires 1 <= |attempts| <= 2
  {
    [Call.CreateContext(display, config, SharedContext(share), clientVersion as int, attempts[0])]
    + if |attempts| == 2 then [Call.CreateContext(display, config, SharedContext(share), 3, attempts[1])] else []
  }

  /** `is_current`: the thread's current context is this context's native context. For a
      real context on a thread bound to a real display, that is exactly when
      `current_handle` reports a handle holding this context. */
  predicate IsCurrent(current: Slot, c: NativeGLContext)
    ensures c.context != NO_CONTEXT && current.display != NO_DISPLAY ==>
      (IsCurrent(current, c) <==> CurrentHandle(current).Some? && CurrentHandle(current).value.context == c.context)
  {
    current.context == c.context
  }

  /** `NativeGLContext::new`. `attempts` records what each `eglCreateContext` call returned. */
  method New(egl: Egl, share: Option<EGLContext>, display: EGLDisplay, surface: EGLSurface,
             config: EGLConfig, clientVersion: u8)
    returns (r: Result<NativeGLContext, string>, ghost attempts: seq<EGLContext>)
    requires egl.Valid()
    modifies egl
    ensures egl.Valid()
    ensures 1 <= |attempts| <= 2
    ensures |attempts| == 2 <==> RetriesWithVersion3(share, attempts[0], clientVersion)
    ensures r.Err? <==> attempts[|attempts| - 1] == NO_CONTEXT
    ensures r.Err? ==> r.error == CREATE_ERROR
    ensures r.Ok? ==> r.value == NativeGLContext(display, surface, attempts[|attempts| - 1], false)
    ensures egl.log == old(egl.log) + CreationCalls(display, config, share, clientVersion, attempts)
                       + if r.Err? then [Call.DestroySurface(display, surface, surface in old(egl.surfaces))] else []
    ensures egl.surfaces == if r.Err? then old(egl.surfaces) - {surface} else old(egl.surfaces)
    ensures r.Err? ==> egl.contexts == old(egl.contexts)
    ensures r.Ok? ==> r.value.context !in old(egl.created) && egl.contexts == old(egl.contexts) + {r.value.context}
    ensures egl.created == if r.Ok? then old(egl.created) + {r.value.context} else old(egl.created)
    ensures egl.current == old(egl.current)
    ensures r.Ok? ==> !IsCurrent(egl.current, r.value)
  {
    var shared := SharedContext(share);
    var ctx := egl.CreateContext(display, config, shared, clientVersion as int);
    attempts := [ctx];
    if share.Some? && ctx == NO_CONTEXT && clientVersion != 3 {
      ctx := egl.CreateContext(display, config, shared, 3);
      attempts := attempts + [ctx];
    }
    if ctx == NO_CONTEXT {
      var destroyed := egl.DestroySurface(display, surface);
      return Err(CREATE_ERROR), attempts;
    }
    r := Ok(NativeGLContext(display, surface, ctx, false));
  }

  /** `make_current`: nothing to do when already current, otherwise bind display, surface
      (as both draw and read surface) and context. */
  method MakeCurrent(egl: Egl, c: NativeGLContext) returns (r: Result<(), string>)
    requires egl.Valid()
    modifies egl
    ensures egl.Valid()
    ensures IsCurrent(old(egl.current), c) ==> r.Ok? && unchanged(egl)
    ensures !IsCurrent(old(egl.current), c) ==>
      && egl.log == old(egl.log) + [Call.MakeCurrent(c.display, c.surface, c.surface, c.context, r.Ok?)]
      && egl.current == if r.Ok? then Bound(c.display, c.surface, c.surface, c.context) else old(egl.current)
    ensures r.Err? ==> r.error == MAKE_CURRENT_ERROR
    ensures r.Ok? ==> IsCurrent(egl.current, c)
    ensures r.Ok? ==> forall d: NativeGLContext :: IsCurrent(egl.current, d) ==> d.context == c.context
    ensures egl.contexts == old(egl.contexts) && egl.surfaces == old(egl.surfaces)
    ensures egl.created == old(egl.created)
  {
    if IsCurrent(egl.current, c) {
      return Ok(());
    }
    var ok := egl.MakeCurrent(c.display, c.surface, c.surface, c.context);
    r := if ok then Ok(()) else Err(MAKE_CURRENT_ERROR);
  }

  /** The calls `unbind` makes from slot `current`, the bind reporting `ok`. */
  ghost function UnbindCalls(current: Slot, c: NativeGLContext, ok: bool): seq<Call> {
    if IsCurrent(current, c) then [Call.MakeCurrent(c.display, NO_SURFACE, NO_SURFACE, NO_CONTEXT, ok)] else []
  }

  /** The destroy calls `drop` makes after unbinding, given what was alive. */
  ghost function DestroyCalls(c: NativeGLContext, surfaces: set<EGLSurface>, contexts: set<EGLContext>): seq<Call> {
    if c.weak then []
    else [Call.DestroySurface(c.display, c.surface, c.surface in surfaces),
          Call.DestroyContext(c.display, c.context, c.context in contexts)]
  }

  /** `unbind`: nothing to do unless current, otherwise release the context on its display. */
  method Unbind(egl: Egl, c: NativeGLContext) returns (r: Result<(), string>)
    requires egl.Valid()
    modifies egl
    ensures egl.Valid()
    ensures !IsCurrent(old(egl.current), c) ==> r.Ok? && unchanged(egl)
    ensures egl.log == old(egl.log) + UnbindCalls(old(egl.current), c, r.Ok?)
    ensures IsCurrent(old(egl.current), c) ==>
      egl.current == if r.Ok? then NOTHING_CURRENT else old(egl.current)
    ensures r.Err? ==> r.error == UNBIND_ERROR
    ensures r.Ok? && c.context != NO_CONTEXT ==> !IsCurrent(egl.current, c)
    ensures IsCurrent(old(egl.current), c) && r.Ok? ==> CurrentHandle(egl.current).None? && Current(egl.current).None?
    ensures egl.contexts == old(egl.contexts) && egl.surfaces == old(egl.surfaces)
    ensures egl.created == old(egl.created)
  {
    if !IsCurrent(egl.current, c) {
      return Ok(());
    }
    var ok := egl.MakeCurrent(c.display, NO_SURFACE, NO_SURFACE, NO_CONTEXT);
    r := if ok then Ok(()) else Err(UNBIND_ERROR);
  }

  /** `Drop::drop`: unbind, ignoring the outcome; then, unless weak, destroy the surface and
      then the context, whether or not the first destroy succeeded. `unbound` is whether
      `unbind` reported success. */
  method Drop(egl: Egl, c: NativeGLContext) returns (ghost unbound: bool)
    requires egl.Valid()
    modifies egl
    ensures egl.Valid()
    ensures egl.log == old(egl.log) + UnbindCalls(old(egl.current), c, unbound)
                       + DestroyCalls(c, old(egl.surfaces), old(egl.contexts))
    ensures egl.current == if IsCurrent(old(egl.current), c) && unbound then NOTHING_CURRENT else old(egl.current)
    ensures egl.surfaces == if c.weak then old(egl.surfaces) else old(egl.surfaces) - {c.surface}
    ensures egl.contexts == if c.weak then old(egl.contexts) else old(egl.contexts) - {c.context}
    ensures egl.created == old(egl.created)
  {
    var released := Unbind(egl, c);
    unbound := released.Ok?;
    if !c.weak {
      var surfaceDestroyed := egl.DestroySurface(c.display, c.surface);
      var contextDestroyed := egl.DestroyContext(c.display, c.context);
    }
  }

  /** `handle`: the context's native context and display, in that order, which is what
      `current_handle` reports once `make_current` has bound the context. */
  function Handle(c: NativeGLContext): (h: NativeGLContextHandle)
    ensures c.context != NO_CONTEXT && c.display != NO_DISPLAY ==>
      CurrentHandle(Bound(c.display, c.surface, c.surface, c.context)) == Some(h)
  {
    NativeGLContextHandle(c.context, c.display)
  }

  /** `current_handle`: a handle exactly when a context is current on a real display. */
  function CurrentHandle(current: Slot): (r: Option<NativeGLContextHandle>)
    ensures r.Some? <==> current.context != NO_CONTEXT && current.display != NO_DISPLAY
    ensures r.Some? ==> r.value.context == current.context && r.value.display == current.display
  {
    if current.context != NO_CONTEXT && current.display != NO_DISPLAY then
      Some(NativeGLContextHandle(current.context, current.display))
    else
      None
  }

  /** `current`: a weak context over the current handle and the current draw surface. */
  function Current(current: Slot): (r: Option<NativeGLContext>)
    ensures r.None? <==> CurrentHandle(current).None?
    ensures r.Some? ==> r.value.weak && Handle(r.value) == CurrentHandle(current).value
    ensures r.Some? ==> r.value.surface == current.draw && IsCurrent(current, r.value)
  {
    match CurrentHandle(current)
    case Some(handle) =>
      Some(NativeGLContext(display := handle.display, surface := current.draw,
                           context := handle.context, weak := true))
    case None => None
  }

  /** While a context is current on its own display, `current_handle` reports its `handle`
      and `current` unpacks that handle into the same display and context, as a weak
      context over the current draw surface. Right after `make_current` that surface is
      the context's own, so `current` gives back the context itself, marked weak. */
  lemma CurrentRoundTripsHandle(current: Slot, c: NativeGLContext)
    requires IsCurrent(current, c) && current.display == c.display
    requires c.context != NO_CONTEXT && c.display != NO_DISPLAY
    ensures CurrentHandle(current) == Some(Handle(c))
    ensures Current(current) == Some(c.(surface := current.draw, weak := true))
    ensures current == Bound(c.display, c.surface, c.surface, c.context) ==> Current(current) == Some(c.(weak := true))
  {
  }

  /** A client drops the weak context `current` returned: no surface or context is
      destroyed, but the drop still releases that context from the thread, so afterwards
      nothing is current unless the release failed. With nothing current there is nothing
      to drop. */
  method DropObserved(egl: Egl) returns (ghost unbound: bool)
    requires egl.Valid()
    modifies egl
    ensures egl.Valid()
    ensures egl.contexts == old(egl.contexts) && egl.surfaces == old(egl.surfaces)
    ensures Current(old(egl.current)).None? ==> !unbound && unchanged(egl)
    ensures Current(old(egl.current)).Some? ==>
      egl.log == old(egl.log) + [Call.MakeCurrent(old(egl.current).display, NO_SURFACE, NO_SURFACE, NO_CONTEXT, unbound)]
    ensures egl.current == if unbound then NOTHING_CURRENT else old(egl.current)
    ensures unbound ==> Current(egl.current).None?
  {
    var observed := Current(egl.current);
    if observed.Some? {
      unbound := Drop(egl, observed.value);
    } else {
      unbound := false;
    }
  }

  /** A client's round: create an unshared context, make it current, unbind it, drop it.
      The context is not current until `make_current` succeeds, is current afterwards, and
      is no longer current once `unbind` succeeds. Whatever fails along the way, the round
      leaks nothing: the contexts alive are those alive before, and the surface is gone. */
  method CreateBindUnbind(egl: Egl, display: EGLDisplay, surface: EGLSurface, config: EGLConfig, clientVersion: u8)
    requires egl.Valid()
    modifies egl
    ensures egl.Valid()
    ensures egl.contexts == old(egl.contexts)
    ensures egl.surfaces == old(egl.surfaces) - {surface}
  {
    var created, attempts := New(egl, None, display, surface, config, clientVersion);
    assert |attempts| == 1;
    if created.Ok? {
      var c := created.value;
      assert !IsCurrent(egl.current, c);
      var bound := MakeCurrent(egl, c);
      if bound.Ok? {
        assert IsCurrent(egl.current, c);
        var released := Unbind(egl, c);
        if released.Ok? {
          assert !IsCurrent(egl.current, c);
        }
      }
      ghost var unbound := Drop(egl, c);
    }
  }
}
