/** The UI slice of src/store/uiSlice.ts: theme, sidebar and modal flags,
    with two toggles and three setters assigned in place. `Apply` is the
    value-level reading of one reducer call. */
module UiSlice {

  datatype Theme = Light | Dark

  datatype UiState = UiState(theme: Theme, sidebarOpen: bool, modalOpen: bool)

  /** initialState: light theme, sidebar open, modal closed. */
  const InitialUiState: UiState := UiState(Light, true, false)

  datatype UiAction =
    | SetTheme(theme: Theme)
    | ToggleTheme
    | SetSidebarOpen(open: bool)
    | ToggleSidebar
    | SetModalOpen(open: bool)

  /** toggleTheme's rule: light becomes dark, anything else becomes light. */
  function Toggled(t: Theme): (r: Theme)
    ensures r != t
  {
    if t == Light then Dark else Light
  }

  /** One reducer call: each reducer writes only its own field. */
  function Apply(s: UiState, a: UiAction): (r: UiState)
    ensures !(a.SetTheme? || a.ToggleTheme?) ==> r.theme == s.theme
    ensures !(a.SetSidebarOpen? || a.ToggleSidebar?) ==> r.sidebarOpen == s.sidebarOpen
    ensures !a.SetModalOpen? ==> r.modalOpen == s.modalOpen
  {
    match a
    case SetTheme(t) => s.(theme := t)
    case ToggleTheme => s.(theme := Toggled(s.theme))
    case SetSidebarOpen(b) => s.(sidebarOpen := b)
    case ToggleSidebar => s.(sidebarOpen := !s.sidebarOpen)
    case SetModalOpen(b) => s.(modalOpen := b)
  }

  /** Both toggles are involutions, and each changes its own field. */
  lemma TogglesAreInvolutions(s: UiState)
    ensures Apply(Apply(s, ToggleTheme), ToggleTheme) == s
    ensures Apply(Apply(s, ToggleSidebar), ToggleSidebar) == s
    ensures Apply(s, ToggleTheme).theme != s.theme && Apply(s, ToggleSidebar).sidebarOpen != s.sidebarOpen
  {
  }

  /** Each setter sets exactly its own field and is idempotent. */
  lemma SettersSetOwnField(s: UiState, t: Theme, b: bool)
    ensures Apply(s, SetTheme(t)) == UiState(t, s.sidebarOpen, s.modalOpen)
    ensures Apply(s, SetSidebarOpen(b)) == UiState(s.theme, b, s.modalOpen)
    ensures Apply(s, SetModalOpen(b)) == UiState(s.theme, s.sidebarOpen, b)
    ensures Apply(Apply(s, SetTheme(t)), SetTheme(t)) == Apply(s, SetTheme(t))
    ensures Apply(Apply(s, SetSidebarOpen(b)), SetSidebarOpen(b)) == Apply(s, SetSidebarOpen(b))
    ensures Apply(Apply(s, SetModalOpen(b)), SetModalOpen(b)) == Apply(s, SetModalOpen(b))
  {
  }

  /** The store holding the slice's state, updated in place by the reducers. */
  class UiStore {
    var theme: Theme
    var sidebarOpen: bool
    var modalOpen: bool

    function State(): UiState
      reads this
    {
      UiState(theme, sidebarOpen, modalOpen)
    }

    constructor ()
      ensures State() == InitialUiState
    {
      theme := Light;
      sidebarOpen := true;
      modalOpen := false;
    }

    method SetTheme(t: Theme)
      modifies this
      ensures State() == Apply(old(State()), UiAction.SetTheme(t))
    {
      theme := t;
    }

    method ToggleTheme()
      modifies this
      ensures State() == Apply(old(State()), UiAction.ToggleTheme)
    {
      theme := if theme == Light then Dark else Light;
    }

    method SetSidebarOpen(open: bool)
      modifies this
      ensures State() == Apply(old(State()), UiAction.SetSidebarOpen(open))
    {
      sidebarOpen := open;
    }

    method ToggleSidebar()
      modifies this
      ensures State() == Apply(old(State()), UiAction.ToggleSidebar)
    {
      sidebarOpen := !sidebarOpen;
    }

    method SetModalOpen(open: bool)
      modifies this
      ensures State() == Apply(old(State()), UiAction.SetModalOpen(open))
    {
      modalOpen := open;
    }
  }
}
