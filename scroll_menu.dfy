/** The scrolling menu of the "Mini Plataforma Teorica" sketch: a list of
    five entries that scrolls by dragging and opens an entry by tapping it,
    and a content view that scrolls its text and has a back button.

    A tap is told apart from a drag only when the finger is lifted: a
    gesture becomes a drag (for good) once the finger strays more than
    `ScrollThreshold` pixels from where it came down. */
module ScrollMenu {
  import opened Arduino
  import opened Touch

  /** Number of entries in the `contents` table. */
  const ContentCount := 5
  /** Height of one menu entry, in pixels. */
  const ItemH := 48
  /** Row of the top of the first entry when the list is not scrolled. */
  const ListTop := 30
  /** Vertical distance from touch-down that turns a gesture into a drag. */
  const ScrollThreshold := 12
  /** Largest menu scroll: `max(0, CONTENT_COUNT * ITEM_H - (SCREEN_H - 40))`. */
  const MenuScrollMax := Max(0, ContentCount * ItemH - (ScreenH - 40))
  /** Largest scroll of a content page. */
  const ContentScrollMax := 500
  /** The `-1` that `touchStartY` and `lastTouchY` hold when no gesture is
      in progress. */
  const NoTouch := -1

  datatype AppState = StateMenu | StateContent

  /** The back button occupies the top-left 60 x 30 pixels. */
  predicate InBackButton(p: Point)
  {
    p.x < 60 && p.y < 30
  }

  /** The entry under a release: `(touchStartY + scrollOffset - 30) / ITEM_H`
      with C++ division, which rounds toward zero. */
  function MenuIndex(touchStartY: int, scrollOffset: int): int
  {
    TDiv(touchStartY + scrollOffset - 30, 48)
  }

  /** Below the list top, entry `i` (from 1 on) is chosen exactly when the
      touch-down row, moved by the scroll, falls in that entry's 48-pixel
      band. */
  lemma MenuIndexSlot(touchStartY: int, scrollOffset: int, i: int)
    requires 1 <= i
    ensures MenuIndex(touchStartY, scrollOffset) == i <==>
              ListTop + i * ItemH <= touchStartY + scrollOffset < ListTop + (i + 1) * ItemH
  {
  }

  /** The first entry is chosen for its own band and, because the division
      rounds toward zero, also for the 47 rows above the list top (scrolled
      rows -17 to 29): with the list unscrolled, a tap on the header opens
      the first entry. */
  lemma MenuIndexFirst(touchStartY: int, scrollOffset: int)
    ensures MenuIndex(touchStartY, scrollOffset) == 0 <==>
              ListTop - ItemH < touchStartY + scrollOffset < ListTop + ItemH
  {
  }

  /** A release selects some entry exactly when the scrolled touch-down row
      is at most 47 rows above the list top (row -17 or below it) or within
      the five entries. */
  lemma MenuIndexInRange(touchStartY: int, scrollOffset: int)
    ensures 0 <= MenuIndex(touchStartY, scrollOffset) < ContentCount <==>
              ListTop - ItemH < touchStartY + scrollOffset < ListTop + 5 * ItemH
  {
  }

  /** One drag step of the menu: add `delta` and clamp to the scrollable
      range. Dragging the finger down (a negative delta) never scrolls
      further down the list, dragging it up never scrolls back. */
  function MenuScroll(offset: int, delta: int): (r: int)
    ensures 0 <= r <= MenuScrollMax
    ensures 0 <= offset <= MenuScrollMax && delta <= 0 ==> r <= offset
    ensures 0 <= offset <= MenuScrollMax && 0 <= delta ==> offset <= r
    ensures 0 <= offset + delta <= MenuScrollMax ==> r == offset + delta
  {
    Constrain(offset + delta, 0, MenuScrollMax)
  }

  /** The menu can scroll by 40 pixels: five 48-pixel entries in a
      200-pixel window. */
  lemma MenuScrollRange()
    ensures MenuScrollMax == 40
  {
  }

  /** One drag step of a content page, clamped to [0, 500]. */
  function ContentScroll(offset: int, delta: int): (r: int)
    ensures 0 <= r <= ContentScrollMax
    ensures 0 <= offset <= ContentScrollMax && delta <= 0 ==> r <= offset
    ensures 0 <= offset <= ContentScrollMax && 0 <= delta ==> offset <= r
    ensures 0 <= offset + delta <= ContentScrollMax ==> r == offset + delta
  {
    Constrain(offset + delta, 0, ContentScrollMax)
  }

  /** The sketch's navigation, scroll and gesture globals. */
  class Platform {
    var state: AppState
    var selectedIndex: int
    var scrollOffset: int
    var lastTouchY: int
    var touchStartY: int
    var moved: bool

    /** The scroll stays in the range of the current view; the content
        view always shows an existing entry and is entered with no gesture
        in progress; only a gesture in progress can be a drag. */
    ghost predicate Valid()
      reads this
    {
      && 0 <= scrollOffset
      && (state == StateMenu ==> scrollOffset <= MenuScrollMax)
      && (state == StateContent ==>
            && scrollOffset <= ContentScrollMax
            && 0 <= selectedIndex < ContentCount
            && touchStartY == NoTouch && !moved)
      && (moved ==> touchStartY != NoTouch)
    }

    /** The globals' initial values: the menu, unscrolled, idle. */
    constructor ()
      ensures Valid()
      ensures state == StateMenu && selectedIndex == -1 && scrollOffset == 0
      ensures lastTouchY == NoTouch && touchStartY == NoTouch && !moved
    {
      state := StateMenu;
      selectedIndex := -1;
      scrollOffset := 0;
      lastTouchY := NoTouch;
      touchStartY := NoTouch;
      moved := false;
    }

    /** The new state after one poll of the menu with `touch`, the whole
        of it.
        - Release: a tap fires only if the gesture never moved, a gesture
          was in progress and the release lands on an entry; it opens that
          entry unscrolled. Either way the gesture is reset.
        - First contact: records where the finger came down, nothing else.
        - Further contact: the gesture becomes a drag once it strays more
          than the threshold, and from then on every sample scrolls by the
          finger's movement since the previous sample. */
    twostate predicate MenuStepped(touch: Option<Point>)
      reads this
    {
      && (touch.None? ==>
            var tap := !old(moved) && old(touchStartY) != NoTouch &&
                       0 <= MenuIndex(old(touchStartY), old(scrollOffset)) < ContentCount;
            && state == (if tap then StateContent else StateMenu)
            && selectedIndex == (if tap then MenuIndex(old(touchStartY), old(scrollOffset)) else old(selectedIndex))
            && scrollOffset == (if tap then 0 else old(scrollOffset))
            && touchStartY == NoTouch && lastTouchY == NoTouch && !moved)
      && (touch.Some? && old(touchStartY) == NoTouch ==>
            && touchStartY == touch.value.y && lastTouchY == touch.value.y && !moved
            && state == StateMenu && selectedIndex == old(selectedIndex)
            && scrollOffset == old(scrollOffset))
      && (touch.Some? && old(touchStartY) != NoTouch ==>
            && moved == (old(moved) || Abs(touch.value.y - old(touchStartY)) > ScrollThreshold)
            && scrollOffset == (if moved then MenuScroll(old(scrollOffset), old(lastTouchY) - touch.value.y)
                                else old(scrollOffset))
            && lastTouchY == touch.value.y && touchStartY == old(touchStartY)
            && state == StateMenu && selectedIndex == old(selectedIndex))
    }

    /** The new state after one poll of a content page with `touch`, the
        whole of it: the gesture fields and the entry shown never change.
        - Release: forgets the last row, so the next contact does not jump.
        - Contact on the back button: back to the menu, unscrolled.
        - Other contact: scrolls by the movement since the previous sample,
          if there was one, clamped to [0, 500]. */
    twostate predicate ContentStepped(touch: Option<Point>)
      reads this
    {
      && selectedIndex == old(selectedIndex) && touchStartY == old(touchStartY) && moved == old(moved)
      && (touch.None? ==>
            lastTouchY == NoTouch && state == StateContent && scrollOffset == old(scrollOffset))
      && (touch.Some? && InBackButton(touch.value) ==>
            state == StateMenu && scrollOffset == 0 && lastTouchY == old(lastTouchY))
      && (touch.Some? && !InBackButton(touch.value) ==>
            && state == StateContent && lastTouchY == touch.value.y
            && scrollOffset == (if old(lastTouchY) != NoTouch
                                then ContentScroll(old(scrollOffset), old(lastTouchY) - touch.value.y)
                                else old(scrollOffset)))
    }

    /** `handleMenuTouch`: one poll of the menu, as `MenuStepped` says. */
    method HandleMenuTouch(touch: Option<Point>)
      requires Valid() && state == StateMenu
      modifies this
      ensures Valid()
      ensures MenuStepped(touch)
    {
      if touch.None? {
        if !moved && touchStartY != NoTouch {
          var index := MenuIndex(touchStartY, scrollOffset);
          if 0 <= index < ContentCount {
            selectedIndex := index;
            scrollOffset := 0;
            state := StateContent;
          }
        }
        touchStartY := NoTouch;
        lastTouchY := NoTouch;
        moved := false;
        return;
      }
      var y := touch.value.y;

      if touchStartY == NoTouch {
        touchStartY := y;
        lastTouchY := y;
        moved := false;
        return;
      }

      var delta := lastTouchY - y;
      if Abs(y - touchStartY) > ScrollThreshold {
        moved := true;
      }
      if moved {
        scrollOffset := scrollOffset + delta;
        scrollOffset := Constrain(scrollOffset, 0, MenuScrollMax);
      }
      lastTouchY := y;
    }

    /** `handleContentTouch`: one poll of a content page, as
        `ContentStepped` says. */
    method HandleContentTouch(touch: Option<Point>)
      requires Valid() && state == StateContent
      modifies this`state, this`scrollOffset, this`lastTouchY
      ensures Valid()
      ensures ContentStepped(touch)
    {
      if touch.None? {
        lastTouchY := NoTouch;
        return;
      }
      var p := touch.value;

      if InBackButton(p) {
        state := StateMenu;
        scrollOffset := 0;
        return;
      }

      if lastTouchY != NoTouch {
        var delta := lastTouchY - p.y;
        scrollOffset := scrollOffset + delta;
        scrollOffset := Constrain(scrollOffset, 0, ContentScrollMax);
      }
      lastTouchY := p.y;
    }

    /** `loop`: read the panel once and hand the sample to the handler of
        the current view, which determines the whole new state. Hence the
        content view is entered only on a release that ends an unmoved
        gesture (never during a drag), the menu only from the back button,
        and both start unscrolled. */
    method Loop(sample: Option<RawPoint>)
      requires Valid()
      modifies this
      ensures Valid()
      ensures old(state) == StateMenu ==> MenuStepped(ReadTouch(sample))
      ensures old(state) == StateContent ==> ContentStepped(ReadTouch(sample))
      ensures old(state) == StateMenu && state == StateContent ==>
                && sample.None? && !old(moved) && old(touchStartY) != NoTouch
                && selectedIndex == MenuIndex(old(touchStartY), old(scrollOffset))
      ensures old(state) == StateContent && state == StateMenu ==>
                sample.Some? && InBackButton(ReadTouch(sample).value)
      ensures state != old(state) ==> scrollOffset == 0
    {
      var touch := ReadTouch(sample);
      if state == StateMenu {
        HandleMenuTouch(touch);
      } else {
        HandleContentTouch(touch);
      }
    }
  }

  /** Touch-down at row 100, release at row 102: the finger moved 2 pixels,
      under the threshold, so the release is a tap on the second entry. */
  method TapScenario()
  {
    var app := new Platform();
    app.HandleMenuTouch(Some(Point(160, 100)));
    app.HandleMenuTouch(Some(Point(160, 102)));
    assert !app.moved;
    app.HandleMenuTouch(None);
    assert app.state == StateContent && app.selectedIndex == 1 && app.scrollOffset == 0;
  }

  /** Touch-down at row 100, drag down to 150, release: a drag, so no entry
      opens; moving the finger down scrolls toward the top, where the
      offset is held at 0. A drag up by 50 scrolls to the 40-pixel end. */
  method DragScenario()
  {
    var app := new Platform();
    app.HandleMenuTouch(Some(Point(160, 100)));
    app.HandleMenuTouch(Some(Point(160, 150)));
    assert app.moved && app.scrollOffset == 0;
    app.HandleMenuTouch(None);
    assert app.state == StateMenu && app.scrollOffset == 0;

    app.HandleMenuTouch(Some(Point(160, 100)));
    app.HandleMenuTouch(Some(Point(160, 50)));
    assert app.scrollOffset == 40;
    app.HandleMenuTouch(None);
    assert app.state == StateMenu && app.scrollOffset == 40;
  }

  /** A tap on the header row 10 of the unscrolled menu opens the first
      entry, and the back button then returns to the menu. */
  method HeaderTapScenario()
  {
    var app := new Platform();
    app.HandleMenuTouch(Some(Point(160, 10)));
    app.HandleMenuTouch(None);
    assert app.state == StateContent && app.selectedIndex == 0;
    app.HandleContentTouch(Some(Point(20, 10)));
    assert app.state == StateMenu && app.scrollOffset == 0;
  }

  /** On the third entry's page, a press on the back button that is still
      held on the next poll lands on the menu's header as a fresh gesture;
      releasing it opens the first entry instead of staying in the menu. */
  method BackHeldScenario()
  {
    var app := new Platform();
    app.HandleMenuTouch(Some(Point(160, 140)));
    app.HandleMenuTouch(None);
    assert app.state == StateContent && app.selectedIndex == 2;
    app.HandleContentTouch(Some(Point(20, 10)));
    assert app.state == StateMenu;
    app.HandleMenuTouch(Some(Point(20, 10)));
    app.HandleMenuTouch(None);
    assert app.state == StateContent && app.selectedIndex == 0;
  }
}
