# Context lifecycle of rust-offscreen-rendering-context, in Dafny

This project models two pieces of the context-lifecycle layer of an off-screen GL
rendering library and proves what they promise.

- **The universal dispatcher** (`surfman/src/platform/generic/universal/context.rs`).
  A `Device`, `Context`, `ContextDescriptor` or `Surface` is a closed two-variant sum
  (`Universal.Tagged`) over the hardware and the software (OSMesa) backend. Every
  dispatcher operation is a function. It matches on the tags of its operands. When the
  tags agree, it forwards to that backend and re-wraps the answer in the same variant.
  When they disagree, it returns one fixed error. The backends are opaque: their values
  are opaque types, and their operations are the function values of a `Backend` record
  passed in as a parameter. An operation that takes a `&mut` operand returns the new
  operand beside its result. The accessors that `panic!` on a mismatch require matching
  tags.
- **The EGL native context** (`src/platform/with_egl/native_gl_context.rs`).
  `EglWorld.Egl` is a class for the EGL state one thread sees:
  - the current (display, draw, read, context) slot;
  - the live contexts and surfaces;
  - every context handle ever created;
  - a ghost log of the state-changing EGL calls, with their outcomes.

  Whether `eglCreateContext` and `eglMakeCurrent` succeed is left to the driver
  (nondeterministic). `NativeContext.NativeGLContext` is a record of display, surface,
  context and the `weak` flag. `new`, `make_current`, `unbind` and `drop` are methods
  that change the world. `is_current`, `handle`, `current_handle` and `current` are
  functions of the slot they read.

Files: `wrappers.dfy` (Option, Result), `universal.dfy` (the dispatcher),
`universal_laws.dfy` (properties that relate several dispatcher operations),
`egl_world.dfy` (the EGL state), `native_gl_context.dfy` (the native context).

Two points where the code behaves otherwise than one might expect; the model follows
the code:
- One might expect dropping a weak context to leave the thread's current context alone,
  so that `current()` still finds it afterwards. The code instead has `drop` always call
  `unbind` first, and the weak context that `current()` returns is current by
  construction. So dropping it releases the thread's current context whenever that
  `eglMakeCurrent` succeeds. `NativeContext.DropObserved` and the contract of
  `NativeContext.Drop` state this.
- `NativeGLContextHandle` is declared as `(EGLDisplay, EGLSurface)`, but `handle()` and
  `current_handle` store (context, display) in it, and `current()` reads it back in that
  order. Both declared types are the same raw pointer type, so nothing goes wrong. The
  model names the fields after what they hold.

## Model

| member | source | states |
|---|---|---|
| `Universal.CreateContextDescriptor` | surfman/src/platform/generic/universal/context.rs:33-43 | A descriptor it returns has the device's tag. The backend's error is passed on unchanged. The backend's descriptor is wrapped in the device's variant. |
| `Universal.FromCurrentHardwareContext` | surfman/src/platform/generic/universal/context.rs:45-50 | On success, both the device and the context are Hardware. A failure of the hardware backend is passed on unchanged. |
| `Universal.FromCurrentSoftwareContext` | surfman/src/platform/generic/universal/context.rs:52-57 | On success, both the device and the context are Software. A failure of the software backend is passed on unchanged. |
| `Universal.CreateContext` | surfman/src/platform/generic/universal/context.rs:59-71 | If the device and descriptor tags differ, the result is `IncompatibleContextDescriptor` and the device is unchanged. A created context has the tag of both. The device keeps its tag. Backend errors are passed on unchanged. |
| `Universal.DestroyContext` | surfman/src/platform/generic/universal/context.rs:73-83 | A tag mismatch gives `IncompatibleContext` and leaves the context untouched. The context keeps its tag. Otherwise the result is the matching backend's. |
| `Universal.GetContextDescriptor` | surfman/src/platform/generic/universal/context.rs:85-95 | It can only be called with matching tags, because the source panics otherwise. The descriptor has the context's tag. |
| `Universal.MakeContextCurrent` | surfman/src/platform/generic/universal/context.rs:97-107 | A tag mismatch gives `IncompatibleContext`. Otherwise the result is the matching backend's. |
| `Universal.MakeNoContextCurrent` | surfman/src/platform/generic/universal/context.rs:109-118 | It has no error of its own. The result is always the answer of the device's own backend. |
| `Universal.BindSurfaceToContext` | surfman/src/platform/generic/universal/context.rs:120-137 | A device/context mismatch gives `IncompatibleContext`, whatever the surface. A matching pair with a surface of the other tag gives `IncompatibleSurface`. In both cases the context is untouched. Otherwise the call is delegated, and the context keeps its tag. |
| `Universal.UnbindSurfaceFromContext` | surfman/src/platform/generic/universal/context.rs:139-154 | A mismatch gives `IncompatibleContext`. A surface it hands back has the context's tag. The context keeps its tag. Backend errors and `None` are passed on unchanged. |
| `Universal.ContextDescriptorAttributes` | surfman/src/platform/generic/universal/context.rs:156-169 | It can only be called with matching tags, because the source panics otherwise. The result is the matching backend's attributes. |
| `Universal.GetProcAddress` | surfman/src/platform/generic/universal/context.rs:171-181 | It can only be called with matching tags, because the source panics otherwise. The result is the matching backend's address. |
| `Universal.GetContextId` | surfman/src/platform/generic/universal/context.rs:183-193 | It can only be called with matching tags, because the source panics otherwise. The result is the matching backend's ID. |
| `Universal.ContextSurface` | surfman/src/platform/generic/universal/context.rs:195-203 | A mismatch gives `UnsupportedOnThisPlatform`, not an Incompatible error. A surface it reports has the context's tag. |
| `UniversalLaws.CreateContextRejectsExactlyMismatch` | surfman/src/platform/generic/universal/context.rs:59-71 | If the backends never report `IncompatibleContextDescriptor` themselves, `create_context` reports it exactly when the tags differ. |
| `UniversalLaws.ContextCallsRejectExactlyMismatch` | surfman/src/platform/generic/universal/context.rs:73-154 | If the backends never report `IncompatibleContext` themselves, then destroy, make-current, bind and unbind each report it exactly when the device and context tags differ. |
| `UniversalLaws.CreatedDescriptorFitsDevice` | surfman/src/platform/generic/universal/context.rs:33-71 | A descriptor the device created is never rejected as incompatible by that device. A context created from it has the tag of the device that results. |
| `UniversalLaws.ContextDescriptorFitsDevice` | surfman/src/platform/generic/universal/context.rs:59-95 | The descriptor read back from a context is accepted by the same device's `create_context`. |
| `UniversalLaws.BindThenUnbindReturnsSurface` | surfman/src/platform/generic/universal/context.rs:120-203 | Suppose each backend hands back the surface it bound. Then a successful bind followed by an unbind returns the same tagged surface, and `context_surface` then reports none. |
| `UniversalLaws.ApplyContextCall` | surfman/src/platform/generic/universal/context.rs:73-154 | One context call keeps the context's tag. On a device/context mismatch it leaves the context unchanged and reports `IncompatibleContext`. |
| `UniversalLaws.RunContextCalls` | surfman/src/platform/generic/universal/context.rs:73-154 | Any sequence of context calls keeps the context's tag. On a device of the other tag, every call reports `IncompatibleContext` and the context is never changed. |
| `EglWorld.Egl.CreateContext` | src/platform/with_egl/native_gl_context.rs:59 | The EGL call `new` makes. It returns either `NO_CONTEXT`, with nothing changed, or a fresh handle that is added to the live contexts. The call is logged. |
| `EglWorld.Egl.MakeCurrent` | src/platform/with_egl/native_gl_context.rs:161-164 | The EGL call `make_current` and `unbind` make. On success the slot holds exactly its arguments when they name a context; a release (`NO_CONTEXT`) leaves nothing current, not even a display, as EGL 1.4 section 3.7.4 has the current display and surfaces reported. On failure the slot is unchanged. It never makes a dead context current. |
| `EglWorld.Egl.DestroySurface` | src/platform/with_egl/native_gl_context.rs:75 | It succeeds exactly when the surface is live, removes the surface, and logs the call. |
| `EglWorld.Egl.DestroyContext` | src/platform/with_egl/native_gl_context.rs:97 | It succeeds exactly when the context is live, removes the context, and logs the call. |
| `NativeContext.New` | src/platform/with_egl/native_gl_context.rs:41-86 | It makes one or two `eglCreateContext` calls. The second one, with client version 3, happens exactly when sharing was requested, the first returned `NO_CONTEXT`, and the version was not 3. On failure it destroys the given surface and returns the creation error. On success it returns a fresh, non-weak context over the given display and surface, which is not current, and records the new handle as created. |
| `NativeContext.SharedContext` | src/platform/with_egl/native_gl_context.rs:49-52 | The context creation is asked to share with is the given one, or `NO_CONTEXT` when none is given. |
| `NativeContext.IsCurrent` | src/platform/with_egl/native_gl_context.rs:151-156 | For a real context on a thread bound to a real display, `is_current` holds exactly when `current_handle` reports a handle holding this context. |
| `NativeContext.MakeCurrent` | src/platform/with_egl/native_gl_context.rs:158-170 | If the context is already current, it returns `Ok` and the EGL state is untouched. Otherwise it makes one bind of (display, surface, surface, context), and it fails exactly when that bind fails. After `Ok`, the context is current and no context holding another native context is. |
| `NativeContext.Unbind` | src/platform/with_egl/native_gl_context.rs:176-188 | If the context is not current, it returns `Ok` and the EGL state is untouched. Otherwise it makes one bind of (display, no surface, no surface, no context), and it fails exactly when that bind fails. After a successful release nothing is current: neither `current_handle` nor `current` finds a context. |
| `NativeContext.Drop` | src/platform/with_egl/native_gl_context.rs:89-103 | It always attempts the unbind and ignores its outcome. If the context was current and the unbind succeeded, nothing is current afterwards; otherwise the slot is unchanged. A weak context destroys nothing. An owning context destroys its surface and then its context, whatever either call reports. |
| `NativeContext.Handle` | src/platform/with_egl/native_gl_context.rs:172-174 | The handle of a real context on a real display is what `current_handle` reports once `make_current` has bound that context. |
| `NativeContext.CurrentHandle` | src/platform/with_egl/native_gl_context.rs:191-200 | It returns a handle exactly when the current context is not `NO_CONTEXT` and the current display is not `NO_DISPLAY`. The handle holds that context and that display. |
| `NativeContext.Current` | src/platform/with_egl/native_gl_context.rs:132-149 | It returns `None` exactly when `current_handle` does. Otherwise it returns a weak context over the current draw surface. That context is current, and its `handle()` is the current handle. |
| `NativeContext.CurrentRoundTripsHandle` | src/platform/with_egl/native_gl_context.rs:132-174 | While a context is current on its own display, `current_handle` is its `handle()`, and `current()` gives back its display and context as a weak context. Right after `make_current` this is the context itself, marked weak. |
| `NativeContext.DropObserved` | src/platform/with_egl/native_gl_context.rs:89-149 | Dropping the weak context that `current()` returns destroys no surface and no context, and makes exactly one EGL call, the release on the current display. Afterwards nothing is current unless that release failed. With nothing current there is nothing to drop and the EGL state is untouched. |
| `NativeContext.CreateBindUnbind` | src/platform/with_egl/native_gl_context.rs:41-188 | A client's round of `new`, `make_current`, `unbind` and `drop` leaks nothing, whichever calls fail: afterwards the live contexts are those alive before, and the given surface is destroyed. |

## Left out

- `surfman/src/platform/windows/angle/device.rs`: the D3D11 and ANGLE device bridge is a sequence of foreign calls guarded by assertions. Apart from "a failed device creation gives `DeviceOpenFailed`", it has nothing to state without modelling D3D11.
- The hardware and OSMesa backends: only their interfaces appear, as uninterpreted functions in `Universal.Backend`. What a backend does to its device, context or surface is not modelled. For this reason `UniversalLaws.BindThenUnbindReturnsSurface` assumes the round trip of each backend.
- `Universal.BindSurfaceToContext`: when the surface has the wrong tag, or the device and context tags differ (`context.rs:135`), the source drops the surface it was given. The model does not track surface ownership, so it does not capture that loss.
- `Universal.ContextSurface`: the source returns a borrowed `SurfaceRef`. The model returns the surface value itself.
- The lazily loaded GL library and `get_proc_address` through `dlsym` (`native_gl_context.rs:13-28`, `207-217`) are dynamic-library I/O on raw pointers.
- `create_headless` and `create_shared` only delegate to `create_pixel_buffer_backed_offscreen_context`, which is not part of this model. `egl::Egl::load_with` is not modelled either.
- The `debug!` logging is left out. So is the `debug_assert!` in `current()` that the draw surface is not `NO_SURFACE`: release builds skip it, and `NativeContext.Current` does not require it.
- The attribute array passed to `eglCreateContext`: only its client-version value is modelled.
- Threads: the model has one thread's current-context slot. It does not model moving handles to other threads (`Send`) or anything else about concurrency.
- `EglWorld.Egl`: real EGL can also fail for reasons this model leaves out, such as a bad display or config, or a lost context. Here `eglDestroySurface` and `eglDestroyContext` fail only on a dead handle.
