/** The two navigation side effects the core performs: a push on the
    client-side router and an assignment to `window.location.href`. Both are
    recorded, not performed. */
module Navigation {

  /** The router, reduced to the list of paths pushed on it. */
  class Router {
    var pushed: seq<string>

    constructor ()
      ensures pushed == []
    {
      pushed := [];
    }

    method Push(path: string)
      modifies this
      ensures pushed == old(pushed) + [path]
    {
      pushed := pushed + [path];
    }
  }

  /** The browser window, reduced to its location. */
  class Window {
    var href: string

    constructor (initial: string)
      ensures href == initial
    {
      href := initial;
    }

    method Assign(path: string)
      modifies this
      ensures href == path
    {
      href := path;
    }
  }

}
