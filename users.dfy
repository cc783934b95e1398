/** The user store as the auth service sees it through
    `UsersService.findOne`: the rows of the `user` table that the ORM returns
    (soft-deleted rows are excluded by the ORM), looked up by one exact field. */
module Users {
  import opened Wrappers

  datatype Role = Role(id: int, name: string)

  /** The columns the auth service reads. `email` and `password` (the bcrypt
      hash) are nullable; `provider` defaults to 'email'; `role` is the
      nullable `role_id` reference, loaded as the role row. */
  datatype User = User(id: int, email: Option<string>, password: Option<string>, provider: string, role: Option<Role>)

  /** The visible rows, in the order the database returns them. */
  type UserTable = seq<User>

  /** `id` is the table's primary key. */
  ghost predicate UniqueIds(t: UserTable) {
    forall i, j :: 0 <= i < j < |t| ==> t[i].id != t[j].id
  }

  /** `email` carries a UNIQUE constraint (several rows may have no email). */
  ghost predicate UniqueEmails(t: UserTable) {
    forall i, j :: 0 <= i < j < |t| && t[i].email.Some? ==> t[i].email != t[j].email
  }

  ghost predicate WellFormed(t: UserTable) {
    UniqueIds(t) && UniqueEmails(t)
  }

  /** `findOne({email})`: the first visible row with exactly that email. */
  function FindByEmail(t: UserTable, email: string): (r: Option<User>)
    ensures r.Some? ==> r.value in t && r.value.email == Some(email)
    ensures r.None? <==> forall u :: u in t ==> u.email != Some(email)
  {
    if |t| == 0 then None
    else if t[0].email == Some(email) then Some(t[0])
    else FindByEmail(t[1..], email)
  }

  /** `findOne({id})`: the first visible row with that id. */
  function FindById(t: UserTable, id: int): (r: Option<User>)
    ensures r.Some? ==> r.value in t && r.value.id == id
    ensures r.None? <==> forall u :: u in t ==> u.id != id
  {
    if |t| == 0 then None
    else if t[0].id == id then Some(t[0])
    else FindById(t[1..], id)
  }

  /** With unique emails, the lookup by email returns the one row that has it. */
  lemma FindByEmailFinds(t: UserTable, u: User)
    requires UniqueEmails(t)
    requires u in t && u.email.Some?
    ensures FindByEmail(t, u.email.value) == Some(u)
  {
  }

  /** With unique ids, the lookup by id returns the one row that has it. */
  lemma FindByIdFinds(t: UserTable, u: User)
    requires UniqueIds(t)
    requires u in t
    ensures FindById(t, u.id) == Some(u)
  {
  }
}
