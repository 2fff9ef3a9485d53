/** The database kinds a statement builder targets. */
module Db {

  /** The type of database; chosen once, when a builder is made. */
  datatype Type = MySQL | PostgreSQL | SQLite
}
