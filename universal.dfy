/**
 * The universal device and context: one logical Device, Context, ContextDescriptor and
 * Surface that is backed either by the hardware (native GL) implementation or by the
 * software (OSMesa) one. Every operation matches on the tags of its operands; when they
 * agree it forwards to that backend and wraps the answer back into the same variant,
 * when they disagree it reports a fixed error or, for the accessors without a Result,
 * cannot be called at all.
 *
 * What each backend stores and computes is not modelled: its values are opaque types and
 * its operations are the function values of a `Backend` record that the caller supplies.
 */
module Universal {
  import opened Wrappers

  /** Which of the two backends a value belongs to. */
  datatype Tag = Hardware | Software

  /** A closed sum over the two backends: the shape of `Device`, `Context`,
      `ContextDescriptor` and `Surface`. */
  datatype Tagged<H, S> = Hardware(hw: H) | Software(sw: S) {
    function TagOf(): Tag {
      if Hardware? then Tag.Hardware else Tag.Software
    }
  }

  // Opaque values of the hardware backend.
  type HWDevice(!new)
  type HWContext(!new)
  type HWContextDescriptor(!new)
  type HWSurface(!new)

  // Opaque values of the software (OSMesa) backend.
  type OSMesaDevice(!new)
  type OSMesaContext(!new)
  type OSMesaContextDescriptor(!new)
  type OSMesaSurface(!new)

  // Opaque values both backends share.
  type ContextAttributes
  type ContextID
  type ProcAddress

  type Device = Tagged<HWDevice, OSMesaDevice>
  type Context = Tagged<HWContext, OSMesaContext>
  type ContextDescriptor = Tagged<HWContextDescriptor, OSMesaContextDescriptor>
  /** A surface; `context_surface` hands out a reference to one, modelled as the surface itself. */
  type Surface = Tagged<HWSurface, OSMesaSurface>

  /** The dispatcher's own errors; every other error a backend reports is `Other`. */
  datatype Error =
    | IncompatibleContext
    | IncompatibleContextDescriptor
    | IncompatibleSurface
    | UnsupportedOnThisPlatform
    | Other(code: nat)

  /**
   * The operations one backend offers, as uninterpreted functions. An operation that
   * takes a `&mut` operand returns its new value beside its result.
   */
  datatype Backend<!D, !C, !CD, !S> = Backend(
    createContextDescriptor: (D, ContextAttributes) -> Result<CD, Error>,
    fromCurrentContext: Result<(D, C), Error>,
    createContext: (D, CD) -> (D, Result<C, Error>),
    destroyContext: (D, C) -> (C, Result<(), Error>),
    contextDescriptor: (D, C) -> CD,
    makeContextCurrent: (D, C) -> Result<(), Error>,
    makeNoContextCurrent: D -> Result<(), Error>,
    bindSurfaceToContext: (D, C, S) -> (C, Result<(), Error>),
    unbindSurfaceFromContext: (D, C) -> (C, Result<Option<S>, Error>),
    contextDescriptorAttributes: (D, CD) -> ContextAttributes,
    getProcAddress: (D, C, string) -> ProcAddress,
    contextId: (D, C) -> ContextID,
    contextSurface: (D, C) -> Result<Option<S>, Error>)

  type HWBackend = Backend<HWDevice, HWContext, HWContextDescriptor, HWSurface>
  type OSMesaBackend = Backend<OSMesaDevice, OSMesaContext, OSMesaContextDescriptor, OSMesaSurface>

  /** The two backends the dispatcher routes to. `fromCurrentContext` stands for what each
      backend finds current on the calling thread. */
  datatype Backends = Backends(hw: HWBackend, sw: OSMesaBackend)

  /** `r` is the backend's answer `inner`: an error passed on unchanged, a value wrapped by `wrap`. */
  ghost predicate Forwards<T, U>(r: Result<U, Error>, inner: Result<T, Error>, wrap: T -> U) {
    match inner
    case Ok(v) => r == Ok(wrap(v))
    case Err(e) => r == Err(e)
  }

  /** The same, for a backend answer that may hold no surface. */
  ghost predicate ForwardsOption<T, U>(r: Result<Option<U>, Error>, inner: Result<Option<T>, Error>, wrap: T -> U) {
    match inner
    case Ok(None) => r == Ok(None)
    case Ok(Some(v)) => r == Ok(Some(wrap(v)))
    case Err(e) => r == Err(e)
  }

  function CreateContextDescriptor(b: Backends, device: Device, attributes: ContextAttributes)
    : (r: Result<ContextDescriptor, Error>)
    ensures r.Ok? ==> r.value.TagOf() == device.TagOf()
    ensures device.Hardware? ==>
      Forwards(r, b.hw.createContextDescriptor(device.hw, attributes), h => ContextDescriptor.Hardware(h))
    ensures device.Software? ==>
      Forwards(r, b.sw.createContextDescriptor(device.sw, attributes), s => ContextDescriptor.Software(s))
  {
    match device
    case Hardware(d) =>
      (match b.hw.createContextDescriptor(d, attributes)
       case Ok(cd) => Ok(Tagged.Hardware(cd))
       case Err(e) => Err(e))
    case Software(d) =>
      (match b.sw.createContextDescriptor(d, attributes)
       case Ok(cd) => Ok(Tagged.Software(cd))
       case Err(e) => Err(e))
  }

  /** `from_current_hardware_context`: adopt what the hardware backend finds current. */
  function FromCurrentHardwareContext(b: Backends): (r: Result<(Device, Context), Error>)
    ensures r.Ok? ==> r.value.0.TagOf() == Tag.Hardware && r.value.1.TagOf() == Tag.Hardware
    ensures Forwards(r, b.hw.fromCurrentContext,
                     (p: (HWDevice, HWContext)) => (Device.Hardware(p.0), Context.Hardware(p.1)))
  {
    match b.hw.fromCurrentContext
    case Ok((d, c)) => Ok((Tagged.Hardware(d), Tagged.Hardware(c)))
    case Err(e) => Err(e)
  }

  /** `from_current_software_context`: adopt what the software backend finds current. */
  function FromCurrentSoftwareContext(b: Backends): (r: Result<(Device, Context), Error>)
    ensures r.Ok? ==> r.value.0.TagOf() == Tag.Software && r.value.1.TagOf() == Tag.Software
    ensures Forwards(r, b.sw.fromCurrentContext,
                     (p: (OSMesaDevice, OSMesaContext)) => (Device.Software(p.0), Context.Software(p.1)))
  {
    match b.sw.fromCurrentContext
    case Ok((d, c)) => Ok((Tagged.Software(d), Tagged.Software(c)))
    case Err(e) => Err(e)
  }

  /** `create_context` takes the device by `&mut`: the new device is the first component. */
  function CreateContext(b: Backends, device: Device, descriptor: ContextDescriptor)
    : (r: (Device, Result<Context, Error>))
    ensures r.0.TagOf() == device.TagOf()
    ensures r.1.Ok? ==> r.1.value.TagOf() == device.TagOf() == descriptor.TagOf()
    ensures device.TagOf() != descriptor.TagOf() ==> r == (device, Err(IncompatibleContextDescriptor))
    ensures device.Hardware? && descriptor.Hardware? ==>
      var (d', c) := b.hw.createContext(device.hw, descriptor.hw);
      r.0 == Device.Hardware(d') && Forwards(r.1, c, h => Context.Hardware(h))
    ensures device.Software? && descriptor.Software? ==>
      var (d', c) := b.sw.createContext(device.sw, descriptor.sw);
      r.0 == Device.Software(d') && Forwards(r.1, c, s => Context.Software(s))
  {
    match (device, descriptor)
    case (Hardware(d), Hardware(cd)) =>
      var (d', c) := b.hw.createContext(d, cd);
      (Tagged.Hardware(d'), match c case Ok(v) => Ok(Tagged.Hardware(v)) case Err(e) => Err(e))
    case (Software(d), Software(cd)) =>
      var (d', c) := b.sw.createContext(d, cd);
      (Tagged.Software(d'), match c case Ok(v) => Ok(Tagged.Software(v)) case Err(e) => Err(e))
    case _ => (device, Err(IncompatibleContextDescriptor))
  }

  /** `destroy_context` takes the context by `&mut`: the new context is the first component. */
  function DestroyContext(b: Backends, device: Device, context: Context): (r: (Context, Result<(), Error>))
    ensures r.0.TagOf() == context.TagOf()
    ensures device.TagOf() != context.TagOf() ==> r == (context, Err(IncompatibleContext))
    ensures device.Hardware? && context.Hardware? ==>
      var (c', res) := b.hw.destroyContext(device.hw, context.hw);
      r == (Context.Hardware(c'), res)
    ensures device.Software? && context.Software? ==>
      var (c', res) := b.sw.destroyContext(device.sw, context.sw);
      r == (Context.Software(c'), res)
  {
    match (device, context)
    case (Hardware(d), Hardware(c)) =>
      var (c', res) := b.hw.destroyContext(d, c);
      (Tagged.Hardware(c'), res)
    case (Software(d), Software(c)) =>
      var (c', res) := b.sw.destroyContext(d, c);
      (Tagged.Software(c'), res)
    case _ => (context, Err(IncompatibleContext))
  }

  /** `context_descriptor`; the source panics on a tag mismatch, so the tags must agree. */
  function GetContextDescriptor(b: Backends, device: Device, context: Context): (r: ContextDescriptor)
    requires device.TagOf() == context.TagOf()
    ensures r.TagOf() == context.TagOf()
    ensures context.Hardware? ==> r == ContextDescriptor.Hardware(b.hw.contextDescriptor(device.hw, context.hw))
    ensures context.Software? ==> r == ContextDescriptor.Software(b.sw.contextDescriptor(device.sw, context.sw))
  {
    match (device, context)
    case (Hardware(d), Hardware(c)) => Tagged.Hardware(b.hw.contextDescriptor(d, c))
    case (Software(d), Software(c)) => Tagged.Software(b.sw.contextDescriptor(d, c))
  }

  function MakeContextCurrent(b: Backends, device: Device, context: Context): (r: Result<(), Error>)
    ensures device.TagOf() != context.TagOf() ==> r == Err(IncompatibleContext)
    ensures device.Hardware? && context.Hardware? ==> r == b.hw.makeContextCurrent(device.hw, context.hw)
    ensures device.Software? && context.Software? ==> r == b.sw.makeContextCurrent(device.sw, context.sw)
  {
    match (device, context)
    case (Hardware(d), Hardware(c)) => b.hw.makeContextCurrent(d, c)
    case (Software(d), Software(c)) => b.sw.makeContextCurrent(d, c)
    case _ => Err(IncompatibleContext)
  }

  /** `make_no_context_current` has no operand to mismatch: it asks the device's own backend. */
  function MakeNoContextCurrent(b: Backends, device: Device): (r: Result<(), Error>)
    ensures device.Hardware? ==> r == b.hw.makeNoContextCurrent(device.hw)
    ensures device.Software? ==> r == b.sw.makeNoContextCurrent(device.sw)
  {
    match device
    case Hardware(d) => b.hw.makeNoContextCurrent(d)
    case Software(d) => b.sw.makeNoContextCurrent(d)
  }

  /** `bind_surface_to_context` takes the context by `&mut` and the surface by value. */
  function BindSurfaceToContext(b: Backends, device: Device, context: Context, surface: Surface)
    : (r: (Context, Result<(), Error>))
    ensures r.0.TagOf() == context.TagOf()
    ensures device.TagOf() != context.TagOf() ==> r == (context, Err(IncompatibleContext))
    ensures device.TagOf() == context.TagOf() && surface.TagOf() != context.TagOf() ==>
      r == (context, Err(IncompatibleSurface))
    ensures device.Hardware? && context.Hardware? && surface.Hardware? ==>
      var (c', res) := b.hw.bindSurfaceToContext(device.hw, context.hw, surface.hw);
      r == (Context.Hardware(c'), res)
    ensures device.Software? && context.Software? && surface.Software? ==>
      var (c', res) := b.sw.bindSurfaceToContext(device.sw, context.sw, surface.sw);
      r == (Context.Software(c'), res)
  {
    match (device, context)
    case (Hardware(d), Hardware(c)) =>
      (match surface
       case Hardware(s) =>
         var (c', res) := b.hw.bindSurfaceToContext(d, c, s);
         (Tagged.Hardware(c'), res)
       case _ => (context, Err(IncompatibleSurface)))
    case (Software(d), Software(c)) =>
      (match surface
       case Software(s) =>
         var (c', res) := b.sw.bindSurfaceToContext(d, c, s);
         (Tagged.Software(c'), res)
       case _ => (context, Err(IncompatibleSurface)))
    case _ => (context, Err(IncompatibleContext))
  }

  /** `unbind_surface_from_context` takes the context by `&mut` and hands back its surface, if any. */
  function UnbindSurfaceFromContext(b: Backends, device: Device, context: Context)
    : (r: (Context, Result<Option<Surface>, Error>))
    ensures r.0.TagOf() == context.TagOf()
    ensures r.1.Ok? && r.1.value.Some? ==> r.1.value.value.TagOf() == context.TagOf()
    ensures device.TagOf() != context.TagOf() ==> r == (context, Err(IncompatibleContext))
    ensures device.Hardware? && context.Hardware? ==>
      var (c', res) := b.hw.unbindSurfaceFromContext(device.hw, context.hw);
      r.0 == Context.Hardware(c') && ForwardsOption(r.1, res, h => Surface.Hardware(h))
    ensures device.Software? && context.Software? ==>
      var (c', res) := b.sw.unbindSurfaceFromContext(device.sw, context.sw);
      r.0 == Context.Software(c') && ForwardsOption(r.1, res, s => Surface.Software(s))
  {
    match (device, context)
    case (Hardware(d), Hardware(c)) =>
      var (c', res) := b.hw.unbindSurfaceFromContext(d, c);
      (Tagged.Hardware(c'),
       match res
       case Ok(None) => Ok(None)
       case Ok(Some(s)) => Ok(Some(Tagged.Hardware(s)))
       case Err(e) => Err(e))
    case (Software(d), Software(c)) =>
      var (c', res) := b.sw.unbindSurfaceFromContext(d, c);
      (Tagged.Software(c'),
       match res
       case Ok(None) => Ok(None)
       case Ok(Some(s)) => Ok(Some(Tagged.Software(s)))
       case Err(e) => Err(e))
    case _ => (context, Err(IncompatibleContext))
  }

  /** `context_descriptor_attributes`; the source panics on a tag mismatch. */
  function ContextDescriptorAttributes(b: Backends, device: Device, descriptor: ContextDescriptor)
    : (r: ContextAttributes)
    requires device.TagOf() == descriptor.TagOf()
    ensures descriptor.Hardware? ==> r == b.hw.contextDescriptorAttributes(device.hw, descriptor.hw)
    ensures descriptor.Software? ==> r == b.sw.contextDescriptorAttributes(device.sw, descriptor.sw)
  {
    match (device, descriptor)
    case (Hardware(d), Hardware(cd)) => b.hw.contextDescriptorAttributes(d, cd)
    case (Software(d), Software(cd)) => b.sw.contextDescriptorAttributes(d, cd)
  }

  /** `get_proc_address`; the source panics on a tag mismatch. */
  function GetProcAddress(b: Backends, device: Device, context: Context, symbolName: string): (r: ProcAddress)
    requires device.TagOf() == context.TagOf()
    ensures context.Hardware? ==> r == b.hw.getProcAddress(device.hw, context.hw, symbolName)
    ensures context.Software? ==> r == b.sw.getProcAddress(device.sw, context.sw, symbolName)
  {
    match (device, context)
    case (Hardware(d), Hardware(c)) => b.hw.getProcAddress(d, c, symbolName)
    case (Software(d), Software(c)) => b.sw.getProcAddress(d, c, symbolName)
  }

  /** `context_id`; the source panics on a tag mismatch. */
  function GetContextId(b: Backends, device: Device, context: Context): (r: ContextID)
    requires device.TagOf() == context.TagOf()
    ensures context.Hardware? ==> r == b.hw.contextId(device.hw, context.hw)
    ensures context.Software? ==> r == b.sw.contextId(device.sw, context.sw)
  {
    match (device, context)
    case (Hardware(d), Hardware(c)) => b.hw.contextId(d, c)
    case (Software(d), Software(c)) => b.sw.contextId(d, c)
  }

  /** `context_surface`: unlike its siblings, a mismatch is `UnsupportedOnThisPlatform`. */
  function ContextSurface(b: Backends, device: Device, context: Context): (r: Result<Option<Surface>, Error>)
    ensures r.Ok? && r.value.Some? ==> r.value.value.TagOf() == context.TagOf()
    ensures device.TagOf() != context.TagOf() ==> r == Err(UnsupportedOnThisPlatform)
    ensures device.Hardware? && context.Hardware? ==>
      ForwardsOption(r, b.hw.contextSurface(device.hw, context.hw), h => Surface.Hardware(h))
    ensures device.Software? && context.Software? ==>
      ForwardsOption(r, b.sw.contextSurface(device.sw, context.sw), s => Surface.Software(s))
  {
    match (device, context)
    case (Hardware(d), Hardware(c)) =>
      (match b.hw.contextSurface(d, c)
       case Ok(None) => Ok(None)
       case Ok(Some(s)) => Ok(Some(Tagged.Hardware(s)))
       case Err(e) => Err(e))
    case (Software(d), Software(c)) =>
      (match b.sw.contextSurface(d, c)
       case Ok(None) => Ok(None)
       case Ok(Some(s)) => Ok(Some(Tagged.Software(s)))
       case Err(e) => Err(e))
    case _ => Err(UnsupportedOnThisPlatform)
  }
}
