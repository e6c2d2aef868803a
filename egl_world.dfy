/**
 * The part of EGL that a native context drives: one thread's current-context slot, the
 * contexts and surfaces that are alive, and the entry points that change them. Whether
 * `eglCreateContext` or `eglMakeCurrent` succeeds is up to the driver and is left open
 * (`if *`); destroying a handle succeeds exactly when the handle is alive.
 *
 * Handles are numbers; 0 is `EGL_NO_DISPLAY`, `EGL_NO_SURFACE` and `EGL_NO_CONTEXT`.
 */
module EglWorld {

  type EGLDisplay = nat
  type EGLSurface = nat
  type EGLContext = nat
  type EGLConfig = nat

  const NO_DISPLAY: EGLDisplay := 0
  const NO_SURFACE: EGLSurface := 0
  const NO_CONTEXT: EGLContext := 0

  /** What `eglGetCurrentDisplay`, `eglGetCurrentSurface(EGL_DRAW / EGL_READ)` and
      `eglGetCurrentContext` report on the calling thread. */
  datatype Slot = Slot(display: EGLDisplay, draw: EGLSurface, read: EGLSurface, context: EGLContext)

  const NOTHING_CURRENT := Slot(NO_DISPLAY, NO_SURFACE, NO_SURFACE, NO_CONTEXT)

  /** The slot a successful `eglMakeCurrent` leaves: the arguments when they name a context;
      when they release it, nothing, since the current display and surfaces are then
      reported as `EGL_NO_DISPLAY` and `EGL_NO_SURFACE` (EGL 1.4, sections 3.7.3 and 3.7.4). */
  function Bound(display: EGLDisplay, draw: EGLSurface, read: EGLSurface, context: EGLContext): Slot {
    if context == NO_CONTEXT then NOTHING_CURRENT else Slot(display, draw, read, context)
  }

  /** One state-changing EGL call with its arguments and outcome. */
  datatype Call =
    | CreateContext(display: EGLDisplay, config: EGLConfig, share: EGLContext, clientVersion: int, result: EGLContext)
    | MakeCurrent(display: EGLDisplay, draw: EGLSurface, read: EGLSurface, context: EGLContext, ok: bool)
    | DestroySurface(display: EGLDisplay, surface: EGLSurface, ok: bool)
    | DestroyContext(display: EGLDisplay, context: EGLContext, ok: bool)

  /** A handle above every element of `s`. */
  ghost function Above(s: set<nat>): (h: nat)
    ensures h > 0 && forall x :: x in s ==> x < h
    decreases |s|
  {
    if s == {} then 1
    else
      var x :| x in s;
      var h := Above(s - {x});
      assert forall y :: y in s ==> y == x || y in s - {x};
      if x < h then h else x + 1
  }

  class Egl {
    /** The calling thread's current-context slot. */
    var current: Slot
    /** Contexts and surfaces that exist and have not been destroyed. */
    var contexts: set<EGLContext>
    var surfaces: set<EGLSurface>
    /** Every context handle ever handed out: a new context never reuses one. */
    var created: set<EGLContext>
    /** Every state-changing call made so far, in order. */
    ghost var log: seq<Call>

    ghost predicate Valid()
      reads this
    {
      && NO_CONTEXT !in created
      && contexts <= created
      && NO_SURFACE !in surfaces
      && (current.context == NO_CONTEXT || current.context in created)
    }

    /** A thread with nothing current, over surfaces made elsewhere. */
    constructor (surfaces: set<EGLSurface>)
      requires NO_SURFACE !in surfaces
      ensures Valid()
      ensures current == NOTHING_CURRENT && contexts == {} && created == {}
      ensures this.surfaces == surfaces && log == []
    {
      current := NOTHING_CURRENT;
      contexts, created := {}, {};
      this.surfaces := surfaces;
      log := [];
    }

    /** `eglCreateContext`: a fresh context, or `EGL_NO_CONTEXT` when the driver refuses. */
    method CreateContext(display: EGLDisplay, config: EGLConfig, share: EGLContext, clientVersion: int)
      returns (ctx: EGLContext)
      requires Valid()
      modifies this
      ensures Valid()
      ensures ctx == NO_CONTEXT ==> contexts == old(contexts) && created == old(created)
      ensures ctx != NO_CONTEXT ==>
        && ctx !in old(created)
        && contexts == old(contexts) + {ctx}
        && created == old(created) + {ctx}
      ensures current == old(current) && surfaces == old(surfaces)
      ensures log == old(log) + [Call.CreateContext(display, config, share, clientVersion, ctx)]
    {
      if * {
        ctx := NO_CONTEXT;
      } else {
        assert Above(created) !in created;
        ctx :| ctx != NO_CONTEXT && ctx !in created;
        contexts := contexts + {ctx};
        created := created + {ctx};
      }
      log := log + [Call.CreateContext(display, config, share, clientVersion, ctx)];
    }

    /** `eglMakeCurrent`: on success the slot holds what `Bound` says; a context that is
        neither `EGL_NO_CONTEXT` nor alive is refused. */
    method MakeCurrent(display: EGLDisplay, draw: EGLSurface, read: EGLSurface, context: EGLContext)
      returns (ok: bool)
      requires Valid()
      modifies this
      ensures Valid()
      ensures ok ==> context == NO_CONTEXT || context in contexts
      ensures current == if ok then Bound(display, draw, read, context) else old(current)
      ensures contexts == old(contexts) && surfaces == old(surfaces) && created == old(created)
      ensures log == old(log) + [Call.MakeCurrent(display, draw, read, context, ok)]
    {
      if context != NO_CONTEXT && context !in contexts {
        ok := false;
      } else if * {
        ok := true;
        current := Bound(display, draw, read, context);
      } else {
        ok := false;
      }
      log := log + [Call.MakeCurrent(display, draw, read, context, ok)];
    }

    /** `eglDestroySurface`: succeeds exactly when the surface is alive. */
    method DestroySurface(display: EGLDisplay, surface: EGLSurface) returns (ok: bool)
      requires Valid()
      modifies this
      ensures Valid()
      ensures ok == (surface in old(surfaces))
      ensures surfaces == old(surfaces) - {surface}
      ensures current == old(current) && contexts == old(contexts) && created == old(created)
      ensures log == old(log) + [Call.DestroySurface(display, surface, ok)]
    {
      ok := surface in surfaces;
      surfaces := surfaces - {surface};
      log := log + [Call.DestroySurface(display, surface, ok)];
    }

    /** `eglDestroyContext`: succeeds exactly when the context is alive. */
    method DestroyContext(display: EGLDisplay, context: EGLContext) returns (ok: bool)
      requires Valid()
      modifies this
      ensures Valid()
      ensures ok == (context in old(contexts))
      ensures contexts == old(contexts) - {context}
      ensures current == old(current) && surfaces == old(surfaces) && created == old(created)
      ensures log == old(log) + [Call.DestroyContext(display, context, ok)]
    {
      ok := context in contexts;
      contexts := contexts - {context};
      log := log + [Call.DestroyContext(display, context, ok)];
    }
  }
}
