/** Optional values: a record that Sequelize's `findOne` may or may not return. */
module Wrappers {
  datatype Option<+T> = None | Some(value: T)
}
