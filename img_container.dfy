/** The image container enhancer of components/img-container.js: the
    loading, loaded and error marks of the inner `img`, the one-shot fallback
    source, the lazy-loading move of data-src/data-srcset, and the copying of
    the container's src, srcset, sizes and alt. */
module ImgContainer {
  import opened Basics

  /** The container's attributes as getAttribute sees them (None when absent). */
  datatype ContainerAttrs = ContainerAttrs(
    fallbackSrc: Option<string>,
    src: Option<string>,
    srcset: Option<string>,
    sizes: Option<string>,
    alt: Option<string>)

  /** A JavaScript-truthy attribute value: present and non-empty. */
  predicate Truthy(a: Option<string>) {
    a.Some? && a.value != ""
  }

  /** The observable state of the `img`: its boolean marks, its src, srcset,
      sizes and alt ("" when unset), its lazy-loading attributes, and whether
      the intersection observer is watching it. */
  datatype ImgState = ImgState(
    dataLoading: bool,
    loaded: bool,
    dataError: bool,
    src: string,
    srcset: string,
    sizes: string,
    alt: string,
    dataSrc: Option<string>,
    dataSrcset: Option<string>,
    observed: bool)

  /** The setup run for a container that has an `img`: mark it loading,
      observe it when the lazy-loading fallback is active and it has
      data-src or data-srcset, then copy the container's attributes. */
  function AfterSetup(s: ImgState, c: ContainerAttrs, lazyFallback: bool): (r: ImgState)
    ensures r.dataLoading && r.loaded == s.loaded && r.dataError == s.dataError
    ensures r.dataSrc == s.dataSrc && r.dataSrcset == s.dataSrcset
    ensures r.observed == (s.observed || (lazyFallback && (s.dataSrc.Some? || s.dataSrcset.Some?)))
    ensures r.src == (if Truthy(c.src) && s.src == "" then c.src.value else s.src)
    ensures r.alt == (if Truthy(c.alt) && s.alt == "" then c.alt.value else s.alt)
    ensures Truthy(c.srcset) ==> r.srcset == c.srcset.value
    ensures !Truthy(c.srcset) ==> r.srcset == s.srcset
    ensures Truthy(c.sizes) ==> r.sizes == c.sizes.value
    ensures !Truthy(c.sizes) ==> r.sizes == s.sizes
  {
    var observe := lazyFallback && (s.dataSrc.Some? || s.dataSrcset.Some?);
    ImgState(
      dataLoading := true,
      loaded := s.loaded,
      dataError := s.dataError,
      src := if Truthy(c.src) && s.src == "" then c.src.value else s.src,
      srcset := if Truthy(c.srcset) then c.srcset.value else s.srcset,
      sizes := if Truthy(c.sizes) then c.sizes.value else s.sizes,
      alt := if Truthy(c.alt) && s.alt == "" then c.alt.value else s.alt,
      dataSrc := s.dataSrc,
      dataSrcset := s.dataSrcset,
      observed := s.observed || observe)
  }

  /** Running the setup a second time changes nothing: a src or alt it
      copied is no longer missing, and the other copies repeat themselves. */
  lemma SetupIdempotent(s: ImgState, c: ContainerAttrs, lazyFallback: bool)
    ensures AfterSetup(AfterSetup(s, c, lazyFallback), c, lazyFallback) == AfterSetup(s, c, lazyFallback)
  {
  }

  /** The load handler: loading ends, loaded is set, nothing else changes. */
  function AfterLoad(s: ImgState): (r: ImgState)
    ensures !r.dataLoading && r.loaded
    ensures r.(dataLoading := s.dataLoading, loaded := s.loaded) == s
  {
    s.(dataLoading := false, loaded := true)
  }

  /** The fallback is usable when it is truthy and not the current src: a
      missing or empty fallback-src, or one the image already shows, is
      never tried. */
  predicate FallbackApplies(s: ImgState, fallback: Option<string>): (r: bool)
    ensures r <==> fallback.Some? && fallback.value != "" && fallback.value != s.src
    ensures fallback.Some? && s.src == fallback.value ==> !r
  {
    Truthy(fallback) && s.src != fallback.value
  }

  /** The error handler: data-error is set; a usable fallback replaces src,
      clears data-error and marks the image loading again. */
  function AfterError(s: ImgState, fallback: Option<string>): (r: ImgState)
    ensures FallbackApplies(s, fallback) ==> r.src == fallback.value && !r.dataError && r.dataLoading
    ensures !FallbackApplies(s, fallback) ==> r.dataError && r.src == s.src && r.dataLoading == s.dataLoading
    ensures r.(src := s.src, dataError := s.dataError, dataLoading := s.dataLoading) == s
  {
    var flagged := s.(dataError := true);
    if FallbackApplies(s, fallback) then
      flagged.(src := fallback.value, dataError := false, dataLoading := true)
    else flagged
  }

  /** The intersection callback for an entry that intersects: data-src and
      data-srcset move into src and srcset and are removed, and the image is
      no longer observed. An image that is not observed gets no callback. */
  function AfterIntersect(s: ImgState): (r: ImgState)
    ensures !s.observed ==> r == s
    ensures s.observed ==> !r.observed && r.dataSrc.None? && r.dataSrcset.None?
    ensures s.observed && s.dataSrc.Some? ==> r.src == s.dataSrc.value
    ensures s.observed && s.dataSrcset.Some? ==> r.srcset == s.dataSrcset.value
    ensures s.dataSrc.None? ==> r.src == s.src
    ensures s.dataSrcset.None? ==> r.srcset == s.srcset
    ensures r.(src := s.src, srcset := s.srcset, dataSrc := s.dataSrc, dataSrcset := s.dataSrcset, observed := s.observed) == s
  {
    if !s.observed then s
    else
      var withSrc := if s.dataSrc.Some? then s.(src := s.dataSrc.value, dataSrc := None) else s;
      var withSrcset := if withSrc.dataSrcset.Some? then withSrc.(srcset := withSrc.dataSrcset.value, dataSrcset := None) else withSrc;
      withSrcset.(observed := false)
  }

  /** A second error after any first one only sets data-error: the fallback
      is never applied twice in a row. */
  lemma SecondErrorOnlyFlags(s: ImgState, fallback: Option<string>)
    ensures AfterError(AfterError(s, fallback), fallback) == AfterError(s, fallback).(dataError := true)
  {
  }

  /** `n` error events in a row. */
  function Errors(s: ImgState, fallback: Option<string>, n: nat): ImgState
    decreases n
  {
    if n == 0 then s else Errors(AfterError(s, fallback), fallback, n - 1)
  }

  /** However many errors follow, src is what the first error left, and
      from the second error on data-error stays set: the fallback is tried
      at most once. */
  lemma {:induction false} FallbackTriedAtMostOnce(s: ImgState, fallback: Option<string>, n: nat)
    requires n >= 2
    ensures Errors(s, fallback, n) == AfterError(s, fallback).(dataError := true)
    ensures Errors(s, fallback, n).src == AfterError(s, fallback).src
    ensures Errors(s, fallback, n).dataError
  {
    var once := AfterError(s, fallback);
    SecondErrorOnlyFlags(s, fallback);
    ErrorsOnFlagged(once.(dataError := true), fallback, n - 2);
    assert Errors(s, fallback, n) == Errors(once, fallback, n - 1);
    assert Errors(once, fallback, n - 1) == Errors(AfterError(once, fallback), fallback, n - 2);
  }

  /** The browser reports `img.src` as a resolved URL. When that URL is not
      literally the fallback-src attribute, as with a relative fallback, every
      error swaps the fallback in again: data-error is cleared and the image
      is marked loading, so the fallback is retried without end. */
  lemma ResolvedSrcRetriesFallback(s: ImgState, fallback: Option<string>, reported: string)
    requires Truthy(fallback) && reported != fallback.value
    ensures AfterError(s.(src := reported), fallback) ==
            s.(src := fallback.value, dataError := false, dataLoading := true)
  {
  }

  /** Errors change nothing once the fallback is spent and data-error is set. */
  lemma {:induction false} ErrorsOnFlagged(s: ImgState, fallback: Option<string>, n: nat)
    requires s.dataError && !FallbackApplies(s, fallback)
    ensures Errors(s, fallback, n) == s
  {
    if n > 0 {
      assert AfterError(s, fallback) == s;
      ErrorsOnFlagged(s, fallback, n - 1);
    }
  }

  /** A second intersection callback changes nothing: the image was unobserved. */
  lemma IntersectOnce(s: ImgState)
    ensures AfterIntersect(AfterIntersect(s)) == AfterIntersect(s)
  {
  }

  /** The `img` element, updated in place by the handlers. */
  class Img {
    var dataLoading: bool
    var loaded: bool
    var dataError: bool
    var src: string
    var srcset: string
    var sizes: string
    var alt: string
    var dataSrc: Option<string>
    var dataSrcset: Option<string>
    var observed: bool

    function State(): ImgState
      reads this
    {
      ImgState(dataLoading, loaded, dataError, src, srcset, sizes, alt, dataSrc, dataSrcset, observed)
    }

    /** An image as the page gives it: not yet marked, not observed. */
    constructor (src0: string, srcset0: string, sizes0: string, alt0: string,
                 dataSrc0: Option<string>, dataSrcset0: Option<string>)
      ensures State() == ImgState(false, false, false, src0, srcset0, sizes0, alt0, dataSrc0, dataSrcset0, false)
    {
      dataLoading, loaded, dataError := false, false, false;
      src, srcset, sizes, alt := src0, srcset0, sizes0, alt0;
      dataSrc, dataSrcset := dataSrc0, dataSrcset0;
      observed := false;
    }

    /** The `load` listener. */
    method OnLoad()
      modifies this
      ensures State() == AfterLoad(old(State()))
    {
      dataLoading := false;
      loaded := true;
    }

    /** The `error` listener, with the container's fallback-src attribute. */
    method OnError(fallback: Option<string>)
      modifies this
      ensures State() == AfterError(old(State()), fallback)
    {
      dataError := true;
      if Truthy(fallback) && src != fallback.value {
        src := fallback.value;
        dataError := false;
        dataLoading := true;
      }
    }

    /** The intersection observer's callback for this image, intersecting. */
    method OnIntersect()
      modifies this
      ensures State() == AfterIntersect(old(State()))
    {
      if observed {
        if dataSrc.Some? {
          src := dataSrc.value;
          dataSrc := None;
        }
        if dataSrcset.Some? {
          srcset := dataSrcset.value;
          dataSrcset := None;
        }
        observed := false;
      }
    }
  }

  /** The per-container setup. A container without an `img` is skipped;
      otherwise the image is marked loading before any event can reach it. */
  method Enhance(c: ContainerAttrs, img: Img?, lazyFallback: bool)
    modifies img
    ensures img != null ==> img.State() == AfterSetup(old(img.State()), c, lazyFallback)
    ensures img != null ==> img.dataLoading
  {
    if img == null {
      return;
    }
    img.dataLoading := true;
    if lazyFallback && (img.dataSrc.Some? || img.dataSrcset.Some?) {
      img.observed := true;
    }
    if Truthy(c.src) && img.src == "" {
      img.src := c.src.value;
    }
    if Truthy(c.srcset) {
      img.srcset := c.srcset.value;
    }
    if Truthy(c.sizes) {
      img.sizes := c.sizes.value;
    }
    if Truthy(c.alt) && img.alt == "" {
      img.alt := c.alt.value;
    }
  }
}
