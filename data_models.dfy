/** The two data-layer records of a user: the storage record held by the local
    source and the wire record exchanged with the remote API. */
module DataModels {

  /** `UserModel`: a user as the data sources hold it; `id == -1` marks an unassigned identity. */
  datatype UserModel = UserModel(id: int, name: string, email: string)

  /** `UserNetworkModel`: a user as the API sends it, with the extra `username` field. */
  datatype UserNetworkModel = UserNetworkModel(id: int, name: string, email: string, username: string)

  /** The identity the local source refuses to store. */
  const UnassignedId: int := -1
}
