/** The scroll listener of `setupStickyNavEnhancements`: a shadow under the
    sticky navigation bar once the content is scrolled, and the bar's
    transform reset whenever the content is not scrolling down past 100. */
module StickyNav {

  const ScrolledShadow := "0 2px 10px rgba(0, 0, 0, 0.3)"
  const NoShadow := "none"
  const Shown := "translateY(0)"

  /** Scrolling down past 100: the one case where the transform is left alone. */
  predicate ScrollingDown(lastScrollTop: int, scrollTop: int)
  {
    scrollTop > lastScrollTop && scrollTop > 100
  }

  class Bar {
    /** The position seen by the previous scroll event (a variable the
        listener closes over). */
    var lastScrollTop: int
    var boxShadow: string
    var transform: string

    /** The listener is registered; the bar keeps the inline styles the page gave it. */
    constructor (pageShadow: string, pageTransform: string)
      ensures lastScrollTop == 0 && boxShadow == pageShadow && transform == pageTransform
    {
      lastScrollTop := 0;
      boxShadow := pageShadow;
      transform := pageTransform;
    }

    method OnScroll(scrollTop: int)
      modifies this
      ensures boxShadow == ScrolledShadow <==> scrollTop > 10
      ensures boxShadow == NoShadow <==> scrollTop <= 10
      ensures transform == if ScrollingDown(old(lastScrollTop), scrollTop) then old(transform) else Shown
      ensures lastScrollTop == scrollTop
    {
      if scrollTop > 10 {
        boxShadow := ScrolledShadow;
      } else {
        boxShadow := NoShadow;
      }
      if ScrollingDown(lastScrollTop, scrollTop) {
      } else {
        transform := Shown;
      }
      lastScrollTop := scrollTop;
    }
  }
}
