/** The signed-in user as the data hooks see it (`useAuth().user`). */
module Session {
  /** Only the id is used by the hooks: every query is scoped by `user_id`. */
  datatype User = User(id: string)
}
