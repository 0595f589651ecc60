/** Conversions between client entities and the API shapes
    (service/ClientMapper.java). */
module ClientMapper {
  import opened Wrappers
  import opened Calendar
  import opened ClientDomain

  /** `toDto`: the stored client with its id. */
  function ToDto(id: Uuid, c: Client): (d: ClientDto)
    ensures d.clientId == id && d.agentId == c.agentId
    ensures d.verificationStatus == c.verificationStatus && d.clientStatus == c.clientStatus
  {
    ClientDto(id, c.agentId, c.firstName, c.lastName, c.dateOfBirth, c.gender, c.email,
              c.phoneNumber, c.address, c.city, c.state, c.country, c.postalCode,
              c.verificationStatus, c.clientStatus)
  }

  /** The DTO hides nothing: two different stored clients never give the same DTO. */
  lemma ToDtoInjective(id1: Uuid, c1: Client, id2: Uuid, c2: Client)
    requires ToDto(id1, c1) == ToDto(id2, c2)
    ensures id1 == id2 && c1 == c2
  {
  }

  /** `toEntity`: a new client is owned by the creating agent, unverified and active. */
  function ToEntity(req: CreateClientRequest, agentId: Uuid): (c: Client)
    ensures c.agentId == agentId
    ensures c.verificationStatus == Unverified && c.clientStatus == ClientActive
    ensures c.firstName == req.firstName && c.lastName == req.lastName
    ensures c.dateOfBirth == req.dateOfBirth && c.gender == req.gender
    ensures c.email == req.email && c.phoneNumber == req.phoneNumber
    ensures c.address == req.address && c.city == req.city && c.state == req.state
    ensures c.country == req.country && c.postalCode == req.postalCode
  {
    Client(agentId, req.firstName, req.lastName, req.dateOfBirth, req.gender, req.email,
           req.phoneNumber, req.address, req.city, req.state, req.country, req.postalCode,
           Unverified, ClientActive)
  }

  /** `updateEntity`: each non-null request field overwrites the stored one,
      the client status included; owner and verification are never touched. */
  function UpdateEntity(c: Client, req: UpdateClientRequest): (u: Client)
    ensures u.agentId == c.agentId && u.verificationStatus == c.verificationStatus
  {
    c.(firstName := req.firstName.GetOr(c.firstName),
       lastName := req.lastName.GetOr(c.lastName),
       dateOfBirth := req.dateOfBirth.GetOr(c.dateOfBirth),
       gender := req.gender.GetOr(c.gender),
       email := req.email.GetOr(c.email),
       phoneNumber := req.phoneNumber.GetOr(c.phoneNumber),
       address := req.address.GetOr(c.address),
       city := req.city.GetOr(c.city),
       state := req.state.GetOr(c.state),
       country := req.country.GetOr(c.country),
       postalCode := req.postalCode.GetOr(c.postalCode),
       clientStatus := req.clientStatus.GetOr(c.clientStatus))
  }

  const EmptyUpdate: UpdateClientRequest :=
    UpdateClientRequest(None, None, None, None, None, None, None, None, None, None, None, None)

  /** An all-null request changes nothing. */
  lemma EmptyUpdateIsIdentity(c: Client)
    ensures UpdateEntity(c, EmptyUpdate) == c
  {
  }

  /** Applying the same request twice is the same as applying it once. */
  lemma UpdateEntityIdempotent(c: Client, req: UpdateClientRequest)
    ensures UpdateEntity(UpdateEntity(c, req), req) == UpdateEntity(c, req)
  {
  }

  /** Every field is the request's when the request gives it and the stored
      one when the request leaves it null. */
  lemma UpdateEntityFieldwise(c: Client, req: UpdateClientRequest)
    ensures var u := UpdateEntity(c, req);
      && (req.firstName.None? ==> u.firstName == c.firstName)
      && (req.firstName.Some? ==> u.firstName == req.firstName.value)
      && (req.lastName.None? ==> u.lastName == c.lastName)
      && (req.lastName.Some? ==> u.lastName == req.lastName.value)
      && (req.dateOfBirth.None? ==> u.dateOfBirth == c.dateOfBirth)
      && (req.dateOfBirth.Some? ==> u.dateOfBirth == req.dateOfBirth.value)
      && (req.gender.None? ==> u.gender == c.gender)
      && (req.gender.Some? ==> u.gender == req.gender.value)
      && (req.email.None? ==> u.email == c.email)
      && (req.email.Some? ==> u.email == req.email.value)
      && (req.phoneNumber.None? ==> u.phoneNumber == c.phoneNumber)
      && (req.phoneNumber.Some? ==> u.phoneNumber == req.phoneNumber.value)
      && (req.address.None? ==> u.address == c.address)
      && (req.address.Some? ==> u.address == req.address.value)
      && (req.city.None? ==> u.city == c.city)
      && (req.city.Some? ==> u.city == req.city.value)
      && (req.state.None? ==> u.state == c.state)
      && (req.state.Some? ==> u.state == req.state.value)
      && (req.country.None? ==> u.country == c.country)
      && (req.country.Some? ==> u.country == req.country.value)
      && (req.postalCode.None? ==> u.postalCode == c.postalCode)
      && (req.postalCode.Some? ==> u.postalCode == req.postalCode.value)
      && (req.clientStatus.None? ==> u.clientStatus == c.clientStatus)
      && (req.clientStatus.Some? ==> u.clientStatus == req.clientStatus.value)
  {
  }

  /** A request that copies a client's own fields reproduces that client. */
  lemma {:induction false} UpdateWithOwnFields(c: Client, agentId: Uuid, req: CreateClientRequest)
    requires c == ToEntity(req, agentId)
    ensures UpdateEntity(c, UpdateClientRequest(
              Some(req.firstName), Some(req.lastName), Some(req.dateOfBirth), Some(req.gender),
              Some(req.email), Some(req.phoneNumber), Some(req.address), Some(req.city),
              Some(req.state), Some(req.country), Some(req.postalCode), Some(ClientActive))) == c
  {
  }
}
