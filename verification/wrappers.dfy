/** The conventional optional value: `None` stands for a JavaScript property that is absent
    (`undefined`), `Some(v)` for one that is present. */
module Wrappers {

  datatype Option<+T> = None | Some(value: T)
}
