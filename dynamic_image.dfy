/** The `DynamicImage` component: its size state, the effect that resolves
    the intrinsic size of the image along one of three paths, and one render.
    The platform asset registry is a function from handle to size, None for
    a handle it does not know. The remote size probe is asynchronous, so the
    effect hands back the probe it starts, and `ProbeSettled` applies its
    answer (None for the error callback) whenever it arrives. */
module DynamicImage {
  import opened Js
  import opened ContainFit
  import opened SourceNormalisation

  /** The component's size state: intrinsic size, render size, and whether
      the intrinsic size has been resolved. */
  datatype ImageSize = ImageSize(realWidth: real, realHeight: real, width: real, height: real, updated: bool)

  /** The state before any resolution: intrinsic 0 x 0, render 512 x 512. */
  const Placeholder := ImageSize(0.0, 0.0, 512.0, 512.0, false)

  /** The container assumed when the prop is not supplied. */
  const DefaultContainer := Size(512.0, 512.0)

  function ContainerOrDefault(prop: Option<Size>): (c: Size) {
    prop.GetOr(DefaultContainer)
  }

  predicate NonZero(s: Size) {
    s.width != 0.0 && s.height != 0.0
  }

  /** The state `set_image_render_size(w, h, container)` writes. */
  function SizedState(w: real, h: real, container: Size): (s: ImageSize)
    requires w != 0.0 && h != 0.0
  {
    var r := RenderSize(w, h, container);
    ImageSize(w, h, r.width, r.height, true)
  }

  /** The invariant of the size state: unresolved means still the
      placeholder; resolved means a nonzero intrinsic size whose aspect ratio
      the render size keeps. */
  predicate Consistent(s: ImageSize) {
    if s.updated then
      s.realWidth != 0.0 && s.realHeight != 0.0 && s.width * s.realHeight == s.height * s.realWidth
    else
      s == Placeholder
  }

  /** How the effect obtains the intrinsic size. */
  datatype Resolution = FromRegistry(handle: real) | FromDescriptor(width: real, height: real) | FromProbe(uri: string)

  /** The effect's three branches, checked in order: a number goes to the
      asset registry, an object with truthy width and height uses them, and
      anything else is probed remotely by its uri. */
  function Dispatch(src: InternalSource): (p: Resolution)
    requires HasUri(src)
    ensures p.FromRegistry? <==> src.LocalAsset?
    ensures p.FromRegistry? ==> p.handle == src.handle
    ensures p.FromDescriptor? <==> src.Described? && TruthyNumber(src.obj.width) && TruthyNumber(src.obj.height)
    ensures p.FromDescriptor? ==> p.width == src.obj.width.value && p.height == src.obj.height.value
    ensures p.FromDescriptor? ==> p.width != 0.0 && p.height != 0.0
    ensures p.FromProbe? ==> src.Described? && Some(p.uri) == src.obj.uri
  {
    if src.LocalAsset? then
      FromRegistry(src.handle)
    else if TruthyNumber(src.obj.width) && TruthyNumber(src.obj.height) then
      FromDescriptor(src.obj.width.value, src.obj.height.value)
    else
      FromProbe(src.obj.uri.value)
  }

  /** A remote size probe in flight: the uri asked about and the container
      its success callback captured. */
  datatype PendingProbe = PendingProbe(uri: string, container: Size)

  /** What the effect comes to at once: resolved synchronously, a probe
      started, or a TypeError because the registry has no entry for the
      handle and destructuring its null answer throws. */
  datatype EffectResult = Resolved | Probing(probe: PendingProbe) | RegistryThrows

  /** A size the registry knows for the handle the effect asks about is
      nonzero. */
  predicate RegistryNonZero(src: InternalSource, registry: real -> Option<Size>) {
    src.LocalAsset? && registry(src.handle).Some? ==> NonZero(registry(src.handle).value)
  }

  /** The state right after the effect runs: resolved at once on the two
      synchronous paths, unchanged while a probe is outstanding or when the
      registry lookup throws. */
  function EffectState(s: ImageSize, src: InternalSource, container: Size, registry: real -> Option<Size>): (s': ImageSize)
    requires HasUri(src) && RegistryNonZero(src, registry)
  {
    match Dispatch(src)
    case FromRegistry(n) =>
      (match registry(n)
       case Some(d) => SizedState(d.width, d.height, container)
       case None => s)
    case FromDescriptor(w, h) => SizedState(w, h, container)
    case FromProbe(_) => s
  }

  /** How the effect ends: the probe it starts, if any, or the throw of an
      unknown asset handle. */
  function EffectOutcome(src: InternalSource, container: Size, registry: real -> Option<Size>): (o: EffectResult)
    requires HasUri(src)
  {
    match Dispatch(src)
    case FromRegistry(n) => if registry(n).Some? then Resolved else RegistryThrows
    case FromDescriptor(_, _) => Resolved
    case FromProbe(uri) => Probing(PendingProbe(uri, container))
  }

  /** The state once a probe answers: its size on success, unchanged on
      failure. */
  function Settle(s: ImageSize, p: PendingProbe, result: Option<Size>): (s': ImageSize)
    requires result.Some? ==> NonZero(result.value)
  {
    match result
    case Some(d) => SizedState(d.width, d.height, p.container)
    case None => s
  }

  /** After sizing, the state holds the intrinsic size, is resolved, fits
      the container, is tight on one axis and satisfies the invariant. */
  lemma SizedStateContainFit(w: real, h: real, container: Size)
    requires w > 0.0 && h > 0.0
    ensures var s := SizedState(w, h, container);
            && s.updated && s.realWidth == w && s.realHeight == h
            && s.width <= container.width && s.height <= container.height
            && (s.width == container.width || s.height == container.height)
            && Consistent(s)
  {
  }

  /** Every state `set_image_render_size` writes satisfies the invariant,
      whatever the signs of the sizes. */
  lemma SizedStateConsistent(w: real, h: real, container: Size)
    requires w != 0.0 && h != 0.0
    ensures Consistent(SizedState(w, h, container))
  {
  }

  /** The effect and a probe's answer keep the invariant. */
  lemma EffectKeepsConsistent(s: ImageSize, src: InternalSource, container: Size, registry: real -> Option<Size>,
                              p: PendingProbe, result: Option<Size>)
    requires HasUri(src) && RegistryNonZero(src, registry)
    requires result.Some? ==> NonZero(result.value)
    requires Consistent(s)
    ensures Consistent(EffectState(s, src, container, registry))
    ensures Consistent(Settle(s, p, result))
  {
    if result.Some? {
      SizedStateConsistent(result.value.width, result.value.height, p.container);
    }
    match Dispatch(src)
    case FromRegistry(n) =>
      if registry(n).Some? {
        SizedStateConsistent(registry(n).value.width, registry(n).value.height, container);
      }
    case FromDescriptor(w, h) => SizedStateConsistent(w, h, container);
    case FromProbe(_) =>
  }

  /** Dispatch of each accepted source: a number goes to the registry with
      its own value, a sized object uses its own width and height, and a
      string goes to the remote probe with the string as uri. */
  lemma DispatchOfAcceptedSource(source: JsValue)
    requires AcceptedShape(source)
    ensures HasUri(Normalise(source).value)
    ensures source.Number? ==> Dispatch(Normalise(source).value) == FromRegistry(source.n)
    ensures source.Object? ==>
              Dispatch(Normalise(source).value) == FromDescriptor(source.obj.width.value, source.obj.height.value)
    ensures source.Text? ==> Dispatch(Normalise(source).value) == FromProbe(source.s)
  {
  }

  /** Only a string source starts a remote probe. */
  lemma OnlyStringsProbe(source: JsValue, container: Size, registry: real -> Option<Size>)
    requires AcceptedShape(source)
    ensures EffectOutcome(Normalise(source).value, container, registry).Probing? <==> source.Text?
  {
  }

  /** A handle the registry does not know makes the effect throw before
      any state is written; a known one resolves the state to its size. */
  lemma RegistryLookup(s: ImageSize, src: InternalSource, container: Size, registry: real -> Option<Size>)
    requires src.LocalAsset? && RegistryNonZero(src, registry)
    ensures registry(src.handle).None? ==>
              EffectOutcome(src, container, registry) == RegistryThrows && EffectState(s, src, container, registry) == s
    ensures registry(src.handle).Some? ==>
              && EffectOutcome(src, container, registry) == Resolved
              && EffectState(s, src, container, registry)
                 == SizedState(registry(src.handle).value.width, registry(src.handle).value.height, container)
  {
  }

  /** On the synchronous paths the effect's result does not depend on the
      earlier state, so running it again on the same inputs leaves the same
      state; with a probe outstanding, or after a throw, the state is left
      as it was. */
  lemma EffectIdempotent(s: ImageSize, src: InternalSource, container: Size, registry: real -> Option<Size>)
    requires HasUri(src) && RegistryNonZero(src, registry)
    ensures var s' := EffectState(s, src, container, registry);
            EffectState(s', src, container, registry) == s'
    ensures EffectOutcome(src, container, registry).Resolved? ==>
              forall t :: EffectState(t, src, container, registry) == EffectState(s, src, container, registry)
    ensures !EffectOutcome(src, container, registry).Resolved? ==> EffectState(s, src, container, registry) == s
  {
  }

  /** The same answer to a probe gives the same state whatever state it
      lands on, and a failed probe changes nothing. */
  lemma SettleIdempotent(s: ImageSize, p: PendingProbe, result: Option<Size>)
    requires result.Some? ==> NonZero(result.value)
    ensures Settle(Settle(s, p, result), p, result) == Settle(s, p, result)
    ensures result.None? ==> Settle(s, p, result) == s
  {
  }

  /** Nothing guards a probe's answer against a newer source: once a later
      effect has resolved the state synchronously, a late success still
      replaces it with the probed size, sized to the container captured
      when the probe started. */
  lemma LateProbeOverwrites(s: ImageSize, p: PendingProbe, src: InternalSource, container: Size,
                            registry: real -> Option<Size>, d: Size)
    requires HasUri(src) && RegistryNonZero(src, registry) && NonZero(d)
    ensures Settle(EffectState(s, src, container, registry), p, Some(d)) == SizedState(d.width, d.height, p.container)
  {
  }

  /** Before the first layout measurement the container is 0 on an axis,
      and the state resolved against it has render size 0 x 0. */
  lemma ZeroContainerState(w: real, h: real, container: Size)
    requires w > 0.0 && h > 0.0
    requires container.width >= 0.0 && container.height >= 0.0
    requires container.width == 0.0 || container.height == 0.0
    ensures SizedState(w, h, container).width == 0.0 && SizedState(w, h, container).height == 0.0
  {
  }

  /** A missing container prop stands for 512 x 512; a supplied one is used
      as it is. */
  lemma DefaultContainerIs512(container: Size)
    ensures ContainerOrDefault(None) == Size(512.0, 512.0)
    ensures ContainerOrDefault(Some(container)) == container
  {
  }

  /** One mounted component: the `imageSize` state and the operations
      that write it. */
  class DynamicImageInstance {
    var imageSize: ImageSize

    ghost predicate Valid()
      reads this
    {
      Consistent(imageSize)
    }

    /** A fresh instance holds the placeholder. */
    constructor ()
      ensures Valid()
      ensures imageSize == Placeholder
    {
      imageSize := Placeholder;
    }

    /** Computes the contain-fit render size and writes it, with the
        intrinsic size, as the resolved state. */
    method SetImageRenderSize(width: real, height: real, container: Size)
      requires width != 0.0 && height != 0.0
      modifies this
      ensures Valid()
      ensures imageSize == SizedState(width, height, container)
    {
      var resizeFactor := Min(container.width / width, container.height / height);
      var newWidth := width * resizeFactor;
      var newHeight := height * resizeFactor;
      imageSize := ImageSize(width, height, newWidth, newHeight, true);
      SizedStateConsistent(width, height, container);
    }

    /** The effect: resolves along the dispatched path, and returns the
        probe it starts on the remote path, or the throw of an unknown
        asset handle. */
    method RunEffect(src: InternalSource, container: Size, registry: real -> Option<Size>)
      returns (outcome: EffectResult)
      requires HasUri(src) && RegistryNonZero(src, registry)
      requires Valid()
      modifies this
      ensures Valid()
      ensures imageSize == EffectState(old(imageSize), src, container, registry)
      ensures outcome == EffectOutcome(src, container, registry)
    {
      match Dispatch(src)
      case FromRegistry(n) =>
        var asset := registry(n);
        if asset.None? {
          // destructuring the null answer throws; nothing is written
          outcome := RegistryThrows;
          return;
        }
        SetImageRenderSize(asset.value.width, asset.value.height, container);
        outcome := Resolved;
      case FromDescriptor(w, h) =>
        SetImageRenderSize(w, h, container);
        outcome := Resolved;
      case FromProbe(uri) =>
        outcome := Probing(PendingProbe(uri, container));
    }

    /** A probe answers: on success the state is sized to the container it
        captured; the error callback only logs. */
    method ProbeSettled(p: PendingProbe, result: Option<Size>)
      requires result.Some? ==> NonZero(result.value)
      requires Valid()
      modifies this
      ensures Valid()
      ensures imageSize == Settle(old(imageSize), p, result)
    {
      match result
      case Some(d) =>
        SetImageRenderSize(d.width, d.height, p.container);
      case None =>
    }

    /** One render: a rejected source renders nothing and schedules no
        effect; an accepted one renders the current render size and then
        runs the effect with the supplied or the default container. */
    method Render(source: JsValue, containerProp: Option<Size>, registry: real -> Option<Size>)
      returns (view: Option<Size>, outcome: Option<EffectResult>)
      requires Normalise(source).Some? ==> RegistryNonZero(Normalise(source).value, registry)
      requires Valid()
      modifies this
      ensures Valid()
      ensures view.None? <==> !AcceptedShape(source)
      ensures view.Some? ==> view.value == Size(old(imageSize).width, old(imageSize).height)
      ensures view.None? ==> imageSize == old(imageSize) && outcome.None?
      ensures view.Some? ==>
                && imageSize == EffectState(old(imageSize), Normalise(source).value, ContainerOrDefault(containerProp), registry)
                && outcome == Some(EffectOutcome(Normalise(source).value, ContainerOrDefault(containerProp), registry))
    {
      var internal := Normalise(source);
      if internal.None? {
        view, outcome := None, None;
        return;
      }
      view := Some(Size(imageSize.width, imageSize.height));
      var result := RunEffect(internal.value, ContainerOrDefault(containerProp), registry);
      outcome := Some(result);
    }
  }
}
