/** Users, as `UserSchema` describes them. */
module UserModel {
  import opened Keyed

  datatype Role = Admin | Customer

  datatype User = User(
    id: Id,
    email: string,
    name: string,
    role: Role,
    createdAt: Time,
    updatedAt: Time)
}
