/**
 * Row shapes of the database tables and the JSON records the handlers return.
 * Identifiers (`UUID` in the service) are modelled as integers: only equality is used.
 * An identifier that Fluent may not have assigned yet (`UUID?`) is an `Option<Uuid>`.
 */
module Records {
  import opened Wrappers

  type Uuid = int

  /** The three access levels of a user. */
  datatype Role = Admin | Standard | Restricted

  datatype User = User(id: Option<Uuid>, firstname: string, lastname: string, email: string,
                       password: string, userType: Role)

  /** `User.Public`: what may be sent to clients (no password hash). */
  datatype PublicUser = PublicUser(id: Option<Uuid>, firstname: string, lastname: string, email: string,
                                   userType: Role)

  /** An ad row as the controllers build it: owned by `userID`, located in `cityID`. */
  datatype Ad = Ad(id: Uuid, note: string, cityID: Uuid, userID: Uuid, images: Option<seq<string>>)

  /** A `Demand` or an `Offer` row: a free-text tag attached to an ad. Both tables share this shape. */
  datatype Tag = Tag(text: string, adID: Uuid)

  /** A like of an ad by a user. */
  datatype Heart = Heart(adID: Uuid, userID: Uuid)

  /** A password-reset token; `createdAt` is in whole seconds. */
  datatype ResetToken = ResetToken(token: string, userID: Uuid, createdAt: Option<int>)

  datatype Department = Department(id: Option<Uuid>, departmentNumber: int, departmentName: string)

  datatype City = City(id: Uuid, city: string, departmentID: Uuid)

  /** `UserUserPivot`: a directed contact request from the first user to the second. */
  datatype ContactEdge = ContactEdge(firstUserID: Uuid, secondUserID: Uuid, areContacs: bool)

  /** `DepartmentDepartmentPivot`: the second department is inside the perimeter of the first. */
  datatype PerimeterEdge = PerimeterEdge(firstDepartmentID: Uuid, secondDepartmentID: Uuid)

  /** The HTTP statuses the handlers abort with. */
  datatype HttpError = Unauthorized | Forbidden | NotFound | InternalServerError

  /** What a user may see of the owner of an ad. */
  datatype ContactData = ContactData(contactID: Uuid, firstname: Option<string>, lastname: Option<string>,
                                     email: Option<string>, youAccepted: bool, otherAccepted: bool)

  datatype ContactRequestFrom = ContactRequestFrom(userID: Uuid, firstname: string)

  datatype ContactInfo = ContactInfo(contact: PublicUser, ads: seq<Ad>)

  datatype AdObject = AdObject(note: string, adID: Uuid, demands: seq<Tag>, offers: seq<Tag>,
                               city: City, department: Department)

  datatype AdsOfPerimeterData = AdsOfPerimeterData(ads: seq<AdObject>, selectedDepartment: Department)

  datatype TokenData = TokenData(token: string, usertype: Role)

  datatype CreateAdData = CreateAdData(note: string, cityID: Uuid)

  /** The part of `AdInfoPostData` the update handler acts on. */
  datatype AdInfoPostData = AdInfoPostData(note: string, demands: seq<string>, offers: seq<string>)

  datatype UserData = UserData(firstname: string, lastname: string, email: string)

  datatype DemandOfferData = DemandOfferData(strings: seq<string>, adID: Uuid)

  /** A URL: a base address followed by path components. */
  datatype Url = Url(base: string, components: seq<string>)
}
