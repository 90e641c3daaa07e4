/** Optional values: Telegram's absent message fields and Python's `None` caption. */
module Wrappers {
  datatype Option<+T> = None | Some(value: T)
}
