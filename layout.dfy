/**
 * The page frame (frontend/src/components/Layout.js): a sidebar that can be collapsed and a
 * dark mode, both remembered in storage, a mobile menu overlay, and the width breakpoint that
 * decides whether the frame is in its mobile form.
 */
module Layout {
  import opened Wrappers
  import opened Storage

  const SidebarKey := "isSidebarOpen"
  const DarkKey := "isDarkMode"

  /** The width below which the frame is in its mobile form. */
  const MobileBreakpoint := 768

  /** The frame's state; `store` is the browser storage it reads and writes. */
  datatype Frame = Frame(sidebarOpen: bool, menuOpen: bool, darkMode: bool, isMobile: bool, store: Store)

  function Stringify(b: bool): string {
    if b then "true" else "false"
  }

  /**
   * `JSON.parse(localStorage.getItem(key)) ?? fallback` for a flag: a missing key and a stored
   * `null` give the fallback, a stored boolean gives itself, and any other text is outside
   * what the frame reads back (None).
   */
  function StoredFlag(store: Store, key: string, fallback: bool): (r: Option<bool>)
    ensures key !in store ==> r == Some(fallback)
    ensures r.Some? && key in store && store[key] != "null" ==> store[key] == Stringify(r.value)
    ensures key in store && store[key] == "null" ==> r == Some(fallback)
  {
    match GetItem(store, key)
    case None => Some(fallback)
    case Some(text) =>
      if text == "null" then Some(fallback)
      else if text == "true" then Some(true)
      else if text == "false" then Some(false)
      else None
  }

  /** A stored flag reads back as the value written. */
  lemma StringifyReadsBack(store: Store, key: string, b: bool, fallback: bool)
    ensures StoredFlag(store[key := Stringify(b)], key, fallback) == Some(b)
  {
  }

  /** The frame as first rendered, for the window width `width`; it fails when a stored flag is not readable. */
  function Mount(store: Store, width: int): (r: Result<Frame, string>)
    ensures r.Success? <==> StoredFlag(store, SidebarKey, true).Some? && StoredFlag(store, DarkKey, false).Some?
    ensures r.Success? ==>
              && r.value.sidebarOpen == StoredFlag(store, SidebarKey, true).value
              && r.value.darkMode == StoredFlag(store, DarkKey, false).value
              && !r.value.menuOpen
              && (r.value.isMobile <==> width < MobileBreakpoint)
              && r.value.store == store
  {
    match (StoredFlag(store, SidebarKey, true), StoredFlag(store, DarkKey, false))
    case (Some(sidebar), Some(dark)) => Success(Frame(sidebar, false, dark, width < MobileBreakpoint, store))
    case _ => Failure("stored flag is not a boolean")
  }

  /** A first visit opens the sidebar in light mode. */
  lemma FirstVisitDefaults(width: int)
    ensures Mount(map[], width) == Success(Frame(true, false, false, width < MobileBreakpoint, map[]))
  {
  }

  /** A stored `false` is kept: the fallback applies only to a missing or null value, not to a falsy one. */
  lemma StoredFalseKept(store: Store, width: int)
    requires StoredFlag(store, DarkKey, false).Some?
    ensures var m := Mount(store[SidebarKey := "false"], width);
            m.Success? && !m.value.sidebarOpen
  {
    assert GetItem(store[SidebarKey := "false"], DarkKey) == GetItem(store, DarkKey);
  }

  /** toggleSidebar flips the sidebar and stores the new value. */
  function ToggleSidebar(f: Frame): (g: Frame)
    ensures g.sidebarOpen == !f.sidebarOpen
    ensures g.store == f.store[SidebarKey := Stringify(g.sidebarOpen)]
    ensures g.(sidebarOpen := f.sidebarOpen, store := f.store) == f
  {
    f.(sidebarOpen := !f.sidebarOpen, store := f.store[SidebarKey := Stringify(!f.sidebarOpen)])
  }

  /** toggleDarkMode flips dark mode and stores the new value. */
  function ToggleDarkMode(f: Frame): (g: Frame)
    ensures g.darkMode == !f.darkMode
    ensures g.store == f.store[DarkKey := Stringify(g.darkMode)]
    ensures g.(darkMode := f.darkMode, store := f.store) == f
  {
    f.(darkMode := !f.darkMode, store := f.store[DarkKey := Stringify(!f.darkMode)])
  }

  /** toggleMenu flips the overlay and stores nothing. */
  function ToggleMenu(f: Frame): (g: Frame)
    ensures g.menuOpen == !f.menuOpen
    ensures g.(menuOpen := f.menuOpen) == f
  {
    f.(menuOpen := !f.menuOpen)
  }

  /** The overlay's close callback and its backdrop. */
  function CloseMenu(f: Frame): (g: Frame)
    ensures !g.menuOpen && g.(menuOpen := f.menuOpen) == f
  {
    f.(menuOpen := false)
  }

  /** handleResize for the new width: a wide window also closes the menu. */
  function Resize(f: Frame, width: int): (g: Frame)
    ensures g.isMobile <==> width < MobileBreakpoint
    ensures width >= MobileBreakpoint ==> !g.menuOpen
    ensures width < MobileBreakpoint ==> g.menuOpen == f.menuOpen
    ensures g.(isMobile := f.isMobile, menuOpen := f.menuOpen) == f
  {
    if width >= MobileBreakpoint then f.(isMobile := false, menuOpen := false)
    else f.(isMobile := true)
  }

  /** The left margin of the main content. */
  function MainMargin(f: Frame): (m: string)
    ensures f.isMobile ==> m == "ml-0"
    ensures !f.isMobile ==> (m == "md:ml-56" <==> f.sidebarOpen)
  {
    if f.isMobile then "ml-0" else if f.sidebarOpen then "md:ml-56" else "md:ml-20"
  }

  /** Toggling twice gives back the frame's state, with the original value now stored explicitly. */
  lemma ToggleTwice(f: Frame)
    ensures ToggleSidebar(ToggleSidebar(f)) == f.(store := f.store[SidebarKey := Stringify(f.sidebarOpen)])
    ensures ToggleDarkMode(ToggleDarkMode(f)) == f.(store := f.store[DarkKey := Stringify(f.darkMode)])
    ensures ToggleMenu(ToggleMenu(f)) == f
  {
  }

  // ---------------------------------------------------------------------------------------
  // What survives a reload

  /** Storage agrees with the frame: both remembered flags read back as they are. */
  predicate Persisted(f: Frame) {
    StoredFlag(f.store, SidebarKey, true) == Some(f.sidebarOpen) && StoredFlag(f.store, DarkKey, false) == Some(f.darkMode)
  }

  datatype Action = SidebarToggle | DarkToggle | MenuToggle | MenuClose | WindowResize(width: int)

  function Step(f: Frame, a: Action): Frame {
    match a
    case SidebarToggle => ToggleSidebar(f)
    case DarkToggle => ToggleDarkMode(f)
    case MenuToggle => ToggleMenu(f)
    case MenuClose => CloseMenu(f)
    case WindowResize(width) => Resize(f, width)
  }

  function Run(f: Frame, actions: seq<Action>): Frame
    decreases |actions|
  {
    if actions == [] then f else Run(Step(f, actions[0]), actions[1..])
  }

  /** A mounted frame agrees with storage. */
  lemma MountPersisted(store: Store, width: int)
    requires Mount(store, width).Success?
    ensures Persisted(Mount(store, width).value)
  {
  }

  /** Every handler keeps storage in agreement with the frame. */
  lemma StepPersisted(f: Frame, a: Action)
    requires Persisted(f)
    ensures Persisted(Step(f, a))
  {
    match a
    case SidebarToggle =>
      StringifyReadsBack(f.store, SidebarKey, !f.sidebarOpen, true);
      assert GetItem(Step(f, a).store, DarkKey) == GetItem(f.store, DarkKey);
    case DarkToggle =>
      StringifyReadsBack(f.store, DarkKey, !f.darkMode, false);
      assert GetItem(Step(f, a).store, SidebarKey) == GetItem(f.store, SidebarKey);
    case MenuToggle =>
    case MenuClose =>
    case WindowResize(width) =>
  }

  lemma {:induction false} RunPersisted(f: Frame, actions: seq<Action>)
    requires Persisted(f)
    ensures Persisted(Run(f, actions))
    decreases |actions|
  {
    if actions != [] {
      StepPersisted(f, actions[0]);
      RunPersisted(Step(f, actions[0]), actions[1..]);
    }
  }

  /**
   * Whatever the user did, a reload restores the sidebar and dark mode as they were left,
   * and starts with the menu closed.
   */
  lemma ReloadRestores(store: Store, width: int, actions: seq<Action>, newWidth: int)
    requires Mount(store, width).Success?
    ensures var f := Run(Mount(store, width).value, actions);
            var g := Mount(f.store, newWidth);
            && g.Success?
            && g.value.sidebarOpen == f.sidebarOpen && g.value.darkMode == f.darkMode
            && !g.value.menuOpen
  {
    MountPersisted(store, width);
    RunPersisted(Mount(store, width).value, actions);
  }
}

/** The frame's state as a component object whose handlers update it in place. */
module LayoutComponent {
  import opened Wrappers
  import opened Storage
  import opened Layout

  class FramePage {
    var isSidebarOpen: bool
    var isMenuOpen: bool
    var isDarkMode: bool
    var isMobile: bool
    var storage: Store

    function State(): Frame
      reads this
    {
      Frame(isSidebarOpen, isMenuOpen, isDarkMode, isMobile, storage)
    }

    /** The lazy initial states; rendering fails first when a stored flag is unreadable. */
    constructor (store: Store, width: int)
      requires Mount(store, width).Success?
      ensures Mount(store, width) == Success(State())
    {
      isSidebarOpen := StoredFlag(store, SidebarKey, true).value;
      isMenuOpen := false;
      isDarkMode := StoredFlag(store, DarkKey, false).value;
      isMobile := width < MobileBreakpoint;
      storage := store;
    }

    method HandleToggleSidebar()
      modifies this
      ensures State() == ToggleSidebar(old(State()))
    {
      var next := !isSidebarOpen;
      isSidebarOpen := next;
      storage := storage[SidebarKey := Stringify(next)];
    }

    method HandleToggleDarkMode()
      modifies this
      ensures State() == ToggleDarkMode(old(State()))
    {
      var next := !isDarkMode;
      isDarkMode := next;
      storage := storage[DarkKey := Stringify(next)];
    }

    method HandleToggleMenu()
      modifies this
      ensures State() == ToggleMenu(old(State()))
    {
      isMenuOpen := !isMenuOpen;
    }

    method HandleCloseMenu()
      modifies this
      ensures State() == CloseMenu(old(State()))
    {
      isMenuOpen := false;
    }

    method HandleResize(width: int)
      modifies this
      ensures State() == Resize(old(State()), width)
    {
      isMobile := width < MobileBreakpoint;
      if width >= MobileBreakpoint {
        isMenuOpen := false;
      }
    }
  }
}
