/**
 * Properties of the universal dispatcher that relate several operations or hold of every
 * backend: which error appears exactly when, how the results of one call fit the next,
 * and that no sequence of calls ever changes a context's tag.
 */
module UniversalLaws {
  import opened Wrappers
  import opened Universal

  /** The backend itself never answers `create_context` with the dispatcher's mismatch error. */
  ghost predicate NeverReportsIncompatibleDescriptor<D(!new), C(!new), CD(!new), S(!new)>(be: Backend<D, C, CD, S>) {
    forall d, cd :: be.createContext(d, cd).1 != Err(IncompatibleContextDescriptor)
  }

  /** The backend itself never answers a context operation with `IncompatibleContext`. */
  ghost predicate NeverReportsIncompatibleContext<D(!new), C(!new), CD(!new), S(!new)>(be: Backend<D, C, CD, S>) {
    && (forall d, c :: be.destroyContext(d, c).1 != Err(IncompatibleContext))
    && (forall d, c :: be.makeContextCurrent(d, c) != Err(IncompatibleContext))
    && (forall d, c, s :: be.bindSurfaceToContext(d, c, s).1 != Err(IncompatibleContext))
    && (forall d, c :: be.unbindSurfaceFromContext(d, c).1 != Err(IncompatibleContext))
  }

  /** The backend hands back, on unbind, the very surface it accepted on bind, and
      reports no bound surface afterwards. */
  ghost predicate ReturnsBoundSurface<D(!new), C(!new), CD(!new), S(!new)>(be: Backend<D, C, CD, S>) {
    forall d, c, s ::
      be.bindSurfaceToContext(d, c, s).1.Ok? ==>
        && be.unbindSurfaceFromContext(d, be.bindSurfaceToContext(d, c, s).0).1 == Ok(Some(s))
        && be.contextSurface(d, be.unbindSurfaceFromContext(d, be.bindSurfaceToContext(d, c, s).0).0) == Ok(None)
  }

  /** `create_context` fails with `IncompatibleContextDescriptor` exactly when the tags differ. */
  lemma CreateContextRejectsExactlyMismatch(b: Backends, device: Device, descriptor: ContextDescriptor)
    requires NeverReportsIncompatibleDescriptor(b.hw) && NeverReportsIncompatibleDescriptor(b.sw)
    ensures CreateContext(b, device, descriptor).1 == Err(IncompatibleContextDescriptor)
            <==> device.TagOf() != descriptor.TagOf()
  {
  }

  /** `destroy_context`, `make_context_current`, `bind_surface_to_context` and
      `unbind_surface_from_context` fail with `IncompatibleContext` exactly when the device
      and context tags differ, whatever the surface. */
  lemma ContextCallsRejectExactlyMismatch(b: Backends, device: Device, context: Context, surface: Surface)
    requires NeverReportsIncompatibleContext(b.hw) && NeverReportsIncompatibleContext(b.sw)
    ensures DestroyContext(b, device, context).1 == Err(IncompatibleContext) <==> device.TagOf() != context.TagOf()
    ensures MakeContextCurrent(b, device, context) == Err(IncompatibleContext) <==> device.TagOf() != context.TagOf()
    ensures BindSurfaceToContext(b, device, context, surface).1 == Err(IncompatibleContext)
            <==> device.TagOf() != context.TagOf()
    ensures UnbindSurfaceFromContext(b, device, context).1 == Err(IncompatibleContext)
            <==> device.TagOf() != context.TagOf()
  {
  }

  /** A descriptor the device created is never rejected by that device's `create_context`,
      and a context created from it shares the tag of the device it leaves behind, so every
      accessor that panics on a mismatch may be called on the pair. */
  lemma CreatedDescriptorFitsDevice(b: Backends, device: Device, attributes: ContextAttributes)
    requires CreateContextDescriptor(b, device, attributes).Ok?
    requires NeverReportsIncompatibleDescriptor(b.hw) && NeverReportsIncompatibleDescriptor(b.sw)
    ensures var (device', created) := CreateContext(b, device, CreateContextDescriptor(b, device, attributes).value);
            && created != Err(IncompatibleContextDescriptor)
            && (created.Ok? ==> created.value.TagOf() == device'.TagOf() == device.TagOf())
  {
  }

  /** The descriptor read back from a context is accepted by the same device again. */
  lemma ContextDescriptorFitsDevice(b: Backends, device: Device, context: Context)
    requires device.TagOf() == context.TagOf()
    requires NeverReportsIncompatibleDescriptor(b.hw) && NeverReportsIncompatibleDescriptor(b.sw)
    ensures CreateContext(b, device, GetContextDescriptor(b, device, context)).1 != Err(IncompatibleContextDescriptor)
  {
  }

  /** Binding a surface and then unbinding it hands back that same surface, with its tag,
      and the context then reports no bound surface, provided the backend keeps that promise. */
  lemma BindThenUnbindReturnsSurface(b: Backends, device: Device, context: Context, surface: Surface)
    requires ReturnsBoundSurface(b.hw) && ReturnsBoundSurface(b.sw)
    requires BindSurfaceToContext(b, device, context, surface).1.Ok?
    ensures var bound := BindSurfaceToContext(b, device, context, surface).0;
            && UnbindSurfaceFromContext(b, device, bound).1 == Ok(Some(surface))
            && ContextSurface(b, device, UnbindSurfaceFromContext(b, device, bound).0) == Ok(None)
  {
  }

  /** A call a client makes on an existing context through the dispatcher. */
  datatype ContextCall = Destroy | MakeCurrent | BindSurface(surface: Surface) | UnbindSurface

  /** One call: the context it leaves behind and the error it reported, if any. */
  function ApplyContextCall(b: Backends, device: Device, context: Context, call: ContextCall)
    : (r: (Context, Option<Error>))
    ensures r.0.TagOf() == context.TagOf()
    ensures device.TagOf() != context.TagOf() ==> r == (context, Some(IncompatibleContext))
  {
    match call
    case Destroy =>
      var (c, res) := DestroyContext(b, device, context);
      (c, if res.Err? then Some(res.error) else None)
    case MakeCurrent =>
      var res := MakeContextCurrent(b, device, context);
      (context, if res.Err? then Some(res.error) else None)
    case BindSurface(s) =>
      var (c, res) := BindSurfaceToContext(b, device, context, s);
      (c, if res.Err? then Some(res.error) else None)
    case UnbindSurface =>
      var (c, res) := UnbindSurfaceFromContext(b, device, context);
      (c, if res.Err? then Some(res.error) else None)
  }

  /** Any sequence of calls: the context keeps its tag throughout, and a context of the other
      tag than the device is never touched, every call on it reporting `IncompatibleContext`. */
  function RunContextCalls(b: Backends, device: Device, context: Context, calls: seq<ContextCall>)
    : (r: (Context, seq<Option<Error>>))
    ensures r.0.TagOf() == context.TagOf()
    ensures |r.1| == |calls|
    ensures device.TagOf() != context.TagOf() ==>
      r.0 == context && forall i :: 0 <= i < |calls| ==> r.1[i] == Some(IncompatibleContext)
    decreases |calls|
  {
    if calls == [] then (context, [])
    else
      var (c, e) := ApplyContextCall(b, device, context, calls[0]);
      var (last, es) := RunContextCalls(b, device, c, calls[1..]);
      (last, [e] + es)
  }
}
