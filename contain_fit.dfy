/** The "contain" fit of `set_image_render_size`: an image of intrinsic size
    w x h is scaled by min(W / w, H / h) to fit a W x H container. Arithmetic
    is exact (`real`). */
module ContainFit {

  datatype Size = Size(width: real, height: real)

  /** Math.min of two numbers. */
  function Min(a: real, b: real): (m: real) {
    if a <= b then a else b
  }

  /** The uniform scale applied to the intrinsic size. */
  function ResizeFactor(w: real, h: real, container: Size): (f: real)
    requires w != 0.0 && h != 0.0
  {
    Min(container.width / w, container.height / h)
  }

  /** The render size: the intrinsic size times the resize factor. */
  function RenderSize(w: real, h: real, container: Size): (r: Size)
    requires w != 0.0 && h != 0.0
  {
    var f := ResizeFactor(w, h, container);
    Size(w * f, h * f)
  }

  /** The render size lies inside the container on both axes. */
  lemma FitsContainer(w: real, h: real, container: Size)
    requires w > 0.0 && h > 0.0
    ensures RenderSize(w, h, container).width <= container.width
    ensures RenderSize(w, h, container).height <= container.height
  {
  }

  /** The aspect ratio is kept: width / height of the render size equals w / h. */
  lemma KeepsAspect(w: real, h: real, container: Size)
    requires w != 0.0 && h != 0.0
    ensures RenderSize(w, h, container).width * h == RenderSize(w, h, container).height * w
  {
  }

  /** The fit is tight: the render size equals the container on some axis. */
  lemma TightOnOneAxis(w: real, h: real, container: Size)
    requires w != 0.0 && h != 0.0
    ensures RenderSize(w, h, container).width == container.width
         || RenderSize(w, h, container).height == container.height
  {
  }

  /** The resize factor is the largest uniform scale that fits: any scale s
      under which the image fits the container is at most the factor. */
  lemma LargestFittingScale(w: real, h: real, container: Size, s: real)
    requires w > 0.0 && h > 0.0
    requires w * s <= container.width && h * s <= container.height
    ensures s <= ResizeFactor(w, h, container)
  {
  }

  /** Before the container is measured (0 on an axis, the other not negative)
      the factor is 0 and the render size collapses to 0 x 0. */
  lemma ZeroContainerCollapses(w: real, h: real, container: Size)
    requires w > 0.0 && h > 0.0
    requires container.width >= 0.0 && container.height >= 0.0
    requires container.width == 0.0 || container.height == 0.0
    ensures ResizeFactor(w, h, container) == 0.0
    ensures RenderSize(w, h, container) == Size(0.0, 0.0)
  {
  }

  /** In a container not smaller than zero the render size is not negative. */
  lemma RenderSizeNotNegative(w: real, h: real, container: Size)
    requires w > 0.0 && h > 0.0
    requires container.width >= 0.0 && container.height >= 0.0
    ensures RenderSize(w, h, container).width >= 0.0
    ensures RenderSize(w, h, container).height >= 0.0
  {
  }

  /** Dividing both arguments of Min by the same positive k divides the
      minimum by k. */
  lemma MinScaled(a: real, b: real, k: real)
    requires k > 0.0
    ensures Min(a / k, b / k) == Min(a, b) / k
  {
  }

  /** The render size depends only on the aspect ratio: scaling the
      intrinsic size by any k > 0 gives the same render size. */
  lemma ScaleInvariant(w: real, h: real, k: real, container: Size)
    requires w != 0.0 && h != 0.0 && k > 0.0
    ensures k * w != 0.0 && k * h != 0.0
    ensures RenderSize(k * w, k * h, container) == RenderSize(w, h, container)
  {
    var f := ResizeFactor(w, h, container);
    assert container.width / (k * w) == (container.width / w) / k;
    assert container.height / (k * h) == (container.height / h) / k;
    MinScaled(container.width / w, container.height / h, k);
    var g := ResizeFactor(k * w, k * h, container);
    assert g == f / k;
  }

  /** Fitting an already fitted image again changes nothing, as long as the
      container is not empty. */
  lemma RefitIsIdentity(w: real, h: real, container: Size)
    requires w > 0.0 && h > 0.0
    requires container.width > 0.0 && container.height > 0.0
    ensures var r := RenderSize(w, h, container);
            r.width != 0.0 && r.height != 0.0 && RenderSize(r.width, r.height, container) == r
  {
  }

  /** The worked example: 1200 x 800 in a 300 x 600 container is scaled by
      0.25 to 300 x 200. */
  lemma WorkedExample()
    ensures ResizeFactor(1200.0, 800.0, Size(300.0, 600.0)) == 0.25
    ensures RenderSize(1200.0, 800.0, Size(300.0, 600.0)) == Size(300.0, 200.0)
  {
  }
}
