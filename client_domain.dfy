/** The client profile entity and the request/response shapes of the client
    service (domain/Client.java and the api/dto records). */
module ClientDomain {
  import opened Wrappers
  import opened Calendar

  /** A UUID in its canonical text form. */
  type Uuid = string

  datatype VerificationStatus = Unverified | Verified
  datatype ClientStatus = ClientActive | ClientDeleted

  /** A stored client without its id: the id is the table key. The gender is
      the name of its enum constant. */
  datatype Client = Client(
    agentId: Uuid,
    firstName: string,
    lastName: string,
    dateOfBirth: Date,
    gender: string,
    email: string,
    phoneNumber: string,
    address: string,
    city: string,
    state: string,
    country: string,
    postalCode: string,
    verificationStatus: VerificationStatus,
    clientStatus: ClientStatus)

  datatype ClientDto = ClientDto(
    clientId: Uuid,
    agentId: Uuid,
    firstName: string,
    lastName: string,
    dateOfBirth: Date,
    gender: string,
    email: string,
    phoneNumber: string,
    address: string,
    city: string,
    state: string,
    country: string,
    postalCode: string,
    verificationStatus: VerificationStatus,
    clientStatus: ClientStatus)

  datatype CreateClientRequest = CreateClientRequest(
    firstName: string,
    lastName: string,
    dateOfBirth: Date,
    gender: string,
    email: string,
    phoneNumber: string,
    address: string,
    city: string,
    state: string,
    country: string,
    postalCode: string)

  /** Every field may be left out (null). */
  datatype UpdateClientRequest = UpdateClientRequest(
    firstName: Option<string>,
    lastName: Option<string>,
    dateOfBirth: Option<Date>,
    gender: Option<string>,
    email: Option<string>,
    phoneNumber: Option<string>,
    address: Option<string>,
    city: Option<string>,
    state: Option<string>,
    country: Option<string>,
    postalCode: Option<string>,
    clientStatus: Option<ClientStatus>)
}
