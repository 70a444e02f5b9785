/**
 * Record shapes of the two in-memory tables (shared/schema.ts). Only the
 * shapes are kept: the database-level `primaryKey` and `unique` constraints
 * are not enforced by the in-memory storage and are not modelled.
 */
module Schema {
  /** A row of the `users` table. */
  datatype User = User(id: string, username: string, password: string)

  /** What `createUser` receives: the `username` and `password` of a user, without an id. */
  datatype InsertUser = InsertUser(username: string, password: string)

  /** A row of the `staff` table, keyed by the platform user id; also its insert shape. */
  datatype Staff = Staff(id: string, username: string)
}
