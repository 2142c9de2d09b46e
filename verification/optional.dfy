/** Optional values, and the JavaScript truthiness the board page tests its ids with. */
module Optional {

  /** `None` stands for JavaScript's `null` and `undefined` alike. */
  datatype Option<T> = None | Some(value: T)

  /** JavaScript truthiness of a `string | null | undefined`: present and not the empty string. */
  predicate Truthy(s: Option<string>) {
    s.Some? && s.value != ""
  }

  /**
   * A JavaScript default parameter: the argument unless it is undefined. JavaScript
   * does not apply the default to an explicit `null`, which `None` also stands for;
   * the board page passes an explicit `null` only as `componentDidMount`'s
   * `attachToBoard(state.boardId, state.viewId)`, where the `null` is `state.viewId`,
   * the very value the default would give, so the two readings agree there.
   */
  function OrDefault<T>(arg: Option<T>, default: Option<T>): Option<T> {
    if arg.Some? then arg else default
  }
}
