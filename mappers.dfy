/** `UserMapper`: between the storage record and the domain entity. */
module UserMapper {
  import opened DataModels
  import opened Domain

  /** `mapToDomain`. */
  function MapToDomain(userModel: UserModel): User {
    User(userModel.id, userModel.name, userModel.email)
  }

  /** `mapToData`. */
  function MapToData(user: User): UserModel {
    UserModel(user.id, user.name, user.email)
  }

  /** Both directions copy the three fields unchanged (the -1 sentinel included). */
  lemma FieldsCopied(m: UserModel, u: User)
    ensures MapToDomain(m).id == m.id && MapToDomain(m).name == m.name && MapToDomain(m).email == m.email
    ensures MapToData(u).id == u.id && MapToData(u).name == u.name && MapToData(u).email == u.email
  {
  }

  /** The two maps are mutually inverse. */
  lemma RoundTrips(m: UserModel, u: User)
    ensures MapToData(MapToDomain(m)) == m
    ensures MapToDomain(MapToData(u)) == u
  {
  }
}

/** `UserNetworkMapper`: between the wire record and the storage record. */
module UserNetworkMapper {
  import opened DataModels

  /** `mapToData`: drops `username`. */
  function MapToData(networkModel: UserNetworkModel): UserModel {
    UserModel(networkModel.id, networkModel.name, networkModel.email)
  }

  /** `mapToNetwork`: writes an empty `username`. */
  function MapToNetwork(dataModel: UserModel): UserNetworkModel {
    UserNetworkModel(dataModel.id, dataModel.name, dataModel.email, "")
  }

  /** `mapToDataList`: `map { mapToData(it) }`, element by element, in order. */
  function MapToDataList(networkModels: seq<UserNetworkModel>): (r: seq<UserModel>)
    ensures |r| == |networkModels|
    ensures forall i :: 0 <= i < |r| ==> r[i] == MapToData(networkModels[i])
  {
    if networkModels == [] then []
    else [MapToData(networkModels[0])] + MapToDataList(networkModels[1..])
  }

  /** Going out to the wire and back loses nothing. */
  lemma DataRoundTrip(m: UserModel)
    ensures MapToData(MapToNetwork(m)) == m
    ensures MapToNetwork(m).username == ""
  {
  }

  /** Coming in from the wire and going back out restores the wire record exactly
      when its `username` was empty. */
  lemma NetworkRoundTrip(n: UserNetworkModel)
    ensures MapToNetwork(MapToData(n)) == n <==> n.username == ""
  {
  }
}
