/** The two-screen switch at the top of the application (src/App.tsx). */
module Navigation {
  /** The list, or the detail page of one recipe. */
  datatype View = ListView | DetailView(uuid: string)

  class App {
    var view: View

    /** The application opens on the list. */
    constructor()
      ensures view == ListView
    {
      view := ListView;
    }

    /** A recipe card was clicked: its detail page replaces the list. */
    method SelectRecipe(uuid: string)
      modifies this
      ensures view == DetailView(uuid)
    {
      view := DetailView(uuid);
    }

    /** The back button, or a finished deletion: the list replaces the detail page. */
    method Back()
      modifies this
      ensures view == ListView
    {
      view := ListView;
    }
  }
}
