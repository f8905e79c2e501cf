/** The layout store (src/store/uiStore.ts): whether the sidebar is
    collapsed and whether it is open. */
module UiStore {

  datatype UIState = UIState(sidebarCollapsed: bool, sidebarOpen: bool)

  const InitialUIState := UIState(false, true)

  /** toggleSidebar */
  function Toggled(s: UIState): (t: UIState)
    ensures t.sidebarCollapsed == !s.sidebarCollapsed
    ensures t.sidebarOpen == s.sidebarOpen
  {
    s.(sidebarCollapsed := !s.sidebarCollapsed)
  }

  /** setSidebarCollapsed */
  function WithCollapsed(s: UIState, collapsed: bool): (t: UIState)
    ensures t.sidebarCollapsed == collapsed
    ensures t.sidebarOpen == s.sidebarOpen
  {
    s.(sidebarCollapsed := collapsed)
  }

  /** setSidebarOpen */
  function WithOpen(s: UIState, open: bool): (t: UIState)
    ensures t.sidebarOpen == open
    ensures t.sidebarCollapsed == s.sidebarCollapsed
  {
    s.(sidebarOpen := open)
  }

  /** Toggling twice changes nothing; toggling always changes the state. */
  lemma ToggleTwiceIsIdentity(s: UIState)
    ensures Toggled(Toggled(s)) == s
    ensures Toggled(s) != s
  {
  }

  /** Setting a field is idempotent, and setting it to its current value
      changes nothing. */
  lemma SettersIdempotent(s: UIState, b: bool)
    ensures WithCollapsed(WithCollapsed(s, b), b) == WithCollapsed(s, b)
    ensures WithOpen(WithOpen(s, b), b) == WithOpen(s, b)
    ensures WithCollapsed(s, s.sidebarCollapsed) == s
    ensures WithOpen(s, s.sidebarOpen) == s
  {
  }

  /** The two setters act on different fields, so their order does not
      matter; toggling is setting the negated value. */
  lemma SettersCommute(s: UIState, c: bool, o: bool)
    ensures WithOpen(WithCollapsed(s, c), o) == WithCollapsed(WithOpen(s, o), c)
    ensures Toggled(s) == WithCollapsed(s, !s.sidebarCollapsed)
  {
  }

  class UIStore {
    var sidebarCollapsed: bool
    var sidebarOpen: bool

    function State(): UIState
      reads this
    {
      UIState(sidebarCollapsed, sidebarOpen)
    }

    constructor ()
      ensures State() == InitialUIState
    {
      sidebarCollapsed, sidebarOpen := false, true;
    }

    method ToggleSidebar()
      modifies this
      ensures State() == Toggled(old(State()))
    {
      sidebarCollapsed := !sidebarCollapsed;
    }

    method SetSidebarCollapsed(collapsed: bool)
      modifies this
      ensures State() == WithCollapsed(old(State()), collapsed)
    {
      sidebarCollapsed := collapsed;
    }

    method SetSidebarOpen(open: bool)
      modifies this
      ensures State() == WithOpen(old(State()), open)
    {
      sidebarOpen := open;
    }
  }
}
