/** The optional value used for the result of the price fetch: `None` stands
    for the fetch failing, `Some(p)` for a spot price `p` in US dollars. */
module Wrappers {

  datatype Option<+T> = None | Some(value: T)
}
