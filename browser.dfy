/**
 * Stand-ins for the two pieces of browser state the client writes: the `rc_token` entry of
 * `localStorage` and the page location.
 */
module Browser {
  import opened Wrappers

  /** The `rc_token` entry of `localStorage`; `None` when the key is absent. */
  class LocalStorage {
    var token: Option<string>

    constructor (initial: Option<string>)
      ensures token == initial
    {
      token := initial;
    }
  }

  /** `window.location.href`. */
  class Location {
    var href: string

    constructor (initial: string)
      ensures href == initial
    {
      href := initial;
    }
  }
}
