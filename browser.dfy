/** What the classifier can observe of its host browser.

    Every probe the classifier makes is a read of one of two facts about the
    current environment: whether `window.matchMedia(q).matches` holds for a
    media query string `q`, and whether a property name is present on
    `window` (`'ontouchstart' in window`). An `Env` records both, so the
    probes become plain functions of a value. */
module Browser {

  datatype Env = Env(
    matching: set<string>,    // the media queries that currently match
    windowProps: set<string>  // the property names present on `window`
  )

  /** `window.matchMedia(query).matches` */
  predicate Matches(env: Env, query: string) {
    query in env.matching
  }

  /** `name in window` */
  predicate InWindow(env: Env, name: string) {
    name in env.windowProps
  }
}
