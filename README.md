# Mutual Help API — business rules of the route handlers

A Dafny model of the rules inside the route handlers of a Vapor 3 backend for a mutual-help
marketplace. Users publish ads listing demands and offers, like ads, and send contact requests
to the owners of ads. Departments are grouped into "perimeters", and the ads around a department
are listed city by city.

The relational store is replaced by in-memory tables: the class `Database.Store`, with one
sequence of rows per table and an ordered token list per user. Each handler that changes rows is
a method over a `Store` whose `modifies` clause names only the tables it touches. Its
postcondition relates the new tables to the old ones through pure functions. The lemmas about
those functions state the properties the handlers promise.

The ORM's operations become plain sequence operations:

- `filter(...).first()` becomes `Tables.FindFirst`, the first row in storage order.
- `filter(...).all()` becomes `Tables.Filter`.
- `range(..<n)` becomes `Tables.Take`.
- `save` of a row that has an id overwrites every row with that id.
- A foreign key with a cascade becomes a filter.

Identifiers are integers. An identifier that Fluent may not have assigned yet is an `Option`.

Errors are the HTTP statuses the handlers abort with (`Records.HttpError`):

- `requireID` on an object without an id gives 500.
- A route parameter naming a missing row gives 404.

Inputs the service takes from outside become parameters of the model:

- password verification and hashing;
- the generated token, the fresh UUIDs and the current time;
- URL signing and the configured base URL.

Time is in whole seconds.

Modules, one per source file of the core:

| module | file | what it holds |
|---|---|---|
| `Wrappers`, `Tables`, `Records`, `Database` | — | table queries, row shapes, the store |
| `UserUserPivot`, `DepartmentDepartmentPivot` | the two pivot files | directed edges, their construction and their cascades |
| `UserEntity`, `DepartmentEntity`, `CityEntity` | `User.swift`, `Department.swift`, `City.swift` | relations and entity helpers |
| `Middlewares` | the two middleware files | the role gate and the ownership gate |
| `UserController`, `AdController`, `AwsController`, `OfferController` | the four controllers | the handlers |

## Where the code and its documentation differ

- **Login token trimming.** The comment says the loop repeats "until the count is smaller
  than 2". The code loops `while count > 2`, and the model follows the code. With two stored
  tokens, one is removed. With more than two, two are kept. So the two-token cap on sessions
  is an invariant: a user who had at most two tokens has at most two after logging in. A user
  who had three or more ends with three.

## Model

| member | source | states |
|---|---|---|
| UserUserPivot.NewContactEdge | Sources/App/Models/Entities/UserUserPivot.swift:39-42 | the left key comes from the first user and the right key from the second; the flag starts unset; it fails with 500 exactly when either user has no id |
| UserUserPivot.WithoutUser | Sources/App/Models/Entities/UserUserPivot.swift:61-62 | deleting a user removes every edge touching it on either side; every other edge keeps its multiplicity |
| DepartmentDepartmentPivot.NewPerimeterEdge | Sources/App/Models/Entities/DepartmentDepartmentPivot.swift:42-45 | the first department is the centre and the second the member; it fails with 500 exactly when either department has no id |
| DepartmentDepartmentPivot.WithoutDepartment | Sources/App/Models/Entities/DepartmentDepartmentPivot.swift:66-67 | deleting a department removes every edge touching it; every other edge keeps its multiplicity |
| UserEntity.PublicViewHidesOnlyPassword | Sources/App/Models/Entities/User.swift:160-161 | two users have the same public view if and only if they differ at most in their password |
| UserEntity.Siblings | Sources/App/Models/Entities/User.swift:93-100 | the sibling join returns exactly the existing users on the far side of the edges that have the given user on the chosen side; every result has an id |
| UserEntity.MyFriends | Sources/App/Models/Entities/User.swift:93-95 | a user is among `myFriends` if and only if an edge runs from this user to it (requests this user sent) |
| UserEntity.SiblingsByEdge | Sources/App/Models/Entities/User.swift:93-100 | the sibling join lists, for each edge with the user on the chosen side and an existing user on the other, that other user, in the storage order of the edges |
| UserEntity.FriendOf | Sources/App/Models/Entities/User.swift:97-100 | a user is among `friendOf` if and only if an edge runs from it to this user (requests this user received) |
| UserEntity.DetachBothSides | Sources/App/Models/Entities/User.swift:120-126 | detaching `friendOf` and then `myFriends` leaves exactly the edges that do not involve the user |
| UserEntity.WillSoftDelete | Sources/App/Models/Entities/User.swift:114-128 | all the user's bearer tokens are deleted; every edge involving the user goes; other edges stay; a user without an id fails with 500 and nothing changes |
| DepartmentEntity.Linked | Sources/App/Models/Entities/Department.swift:70-76 | the sibling join over perimeter edges returns exactly the existing departments on the far side of the edges with the department on the chosen side |
| DepartmentEntity.PerimeterOf | Sources/App/Models/Entities/Department.swift:70-72 | D' is in the perimeter of D if and only if an edge (D, D') exists and D' exists |
| DepartmentEntity.CentresOf | Sources/App/Models/Entities/Department.swift:74-76 | D' is a centre of D if and only if an edge (D', D) exists and D' exists |
| DepartmentEntity.LinkedAppend | Sources/App/Models/Entities/Department.swift:70-76 | a new edge adds its department at the end of the relation and keeps the earlier entries in order |
| DepartmentEntity.LinkEffect | Sources/App/Models/Entities/Department.swift:70-76 | linking A to B appends B to A's perimeter and A to B's centres; the perimeter of every department other than A is unchanged, so A does not join B's perimeter |
| DepartmentEntity.FindDepartmentByName | Sources/App/Models/Entities/Department.swift:92 | the lookup returns the first department with that name in storage order, or nothing exactly when none has it |
| DepartmentEntity.AddDepartment | Sources/App/Models/Entities/Department.swift:91-99 | with no department of that name, or no ids, it fails with 500 and adds no edge; otherwise it adds exactly the edge (department, found) |
| DepartmentEntity.AddPivot | Sources/App/Models/Entities/Department.swift:107-115 | an unknown id gives 404 and no edge; otherwise it adds exactly the edge (department, neighbour) |
| CityEntity.FindCityByName | Sources/App/Models/Entities/City.swift:73 | the lookup returns the first city with that name, or nothing exactly when none has it |
| CityEntity.CreateCity | Sources/App/Models/Entities/City.swift:71-84 | an existing city of that name is moved to the department and no city is created; otherwise exactly one city with that name and department is inserted; afterwards the first city of that name is the returned one; a department without an id fails with 500 and changes nothing |
| CityEntity.CityAfterSave | Sources/App/Models/Entities/City.swift:75-77 | saving the moved city keeps it the first city of its name |
| Middlewares.StandardUserGate | Sources/App/Middlewares/StandardMiddleware.swift:20-25 | no authenticated user gives 401; admin and standard users pass, with the response of the rest of the chain unchanged; restricted users get 403 |
| Middlewares.OwnerOf | Sources/App/Middlewares/AdUserMiddleware.swift:27 | the owner is found exactly when an ad has that id, and it is that ad's `userID` |
| Middlewares.AdUserGate | Sources/App/Middlewares/AdUserMiddleware.swift:23-34 | no authenticated user gives 401 before any lookup; an unknown ad gives 404; the request passes if and only if the caller owns the ad, with no exception for admins; other callers with an id get 403 |
| Middlewares.AdminOrOwner | Sources/App/Controllers/AdController.swift:171 | it grants access if and only if the caller is an admin or has the owner's id; an admin passes without an id check; a non-admin without an id fails with 500 |
| Database.SaveUser | Sources/App/Controllers/UserController.swift:260 | a user without an id is appended; otherwise every row with its id is overwritten and nothing else changes |
| Database.SaveUserFinds | Sources/App/Controllers/UserController.swift:257-260 | after saving an existing user, a lookup by its id returns the saved user |
| UserController.FirstEdge | Sources/App/Controllers/UserController.swift:541 | it returns the index of the first edge from one user to the other, or nothing exactly when there is no such edge |
| UserController.FirstEdgeAppend | Sources/App/Controllers/UserController.swift:616 | appending edges never changes which edge is found first once there is one |
| UserController.AdOwner | Sources/App/Controllers/UserController.swift:515 | the ad–owner join finds an owner exactly when some ad with that id has an existing owner |
| UserController.SendContactRequest | Sources/App/Controllers/UserController.swift:510-521 | an ad without an owner gives 404 and nothing changes; otherwise it appends one new unaccepted edge from the caller to the owner; a caller without an id gives 500 |
| UserController.AcceptRequest | Sources/App/Controllers/UserController.swift:541-544 | it sets the flag on the first edge from the requester to the caller and only that edge; 404 exactly when there is no such edge |
| UserController.DeclineRequest | Sources/App/Controllers/UserController.swift:566-569 | it deletes exactly one copy of the first edge from the requester to the caller; 404 exactly when there is no such edge |
| UserController.AcceptContactRequest | Sources/App/Controllers/UserController.swift:537-546 | the contact table becomes `AcceptRequest` of the old one; a caller without an id gives 500; any error leaves the table unchanged |
| UserController.DeclineContactRequest | Sources/App/Controllers/UserController.swift:562-571 | the contact table becomes `DeclineRequest` of the old one; a caller without an id gives 500; any error leaves the table unchanged |
| UserController.ContactUsers | Sources/App/Controllers/UserController.swift:450-457 | a user is a contact if and only if an accepted edge joins it to the caller in either direction and the user exists. The list has one entry per such edge: first the senders of the accepted edges into the caller, then the receivers of the accepted edges out of it, each run in storage order |
| UserController.Contacts | Sources/App/Controllers/UserController.swift:446-471 | there is one card per contact, in the order of `ContactUsers` (incoming contacts first); each card holds the contact's public view and exactly the ads it owns |
| UserController.ContactRequests | Sources/App/Controllers/UserController.swift:486-493 | the list holds exactly the unaccepted edges pointing at the caller whose sender exists, each with the sender's id and first name |
| UserController.ContactRequestsMembership | Sources/App/Controllers/UserController.swift:489-491 | mapping the pending `friendOf` users gives exactly the pending requests |
| UserController.ContactView | Sources/App/Controllers/UserController.swift:616-655 | an incoming edge decides first: accepted shows everything with both flags set; unaccepted shows the first name only, with `youAccepted` false and `otherAccepted` true. Otherwise an outgoing edge decides: everything is shown, `youAccepted` is true, and `otherAccepted` is its flag. With no edge, a stranger sees the first name and two false flags, and the owner sees its own details with two true flags. Last name and e-mail appear if and only if `youAccepted` |
| UserController.IncomingTakesPrecedence | Sources/App/Controllers/UserController.swift:616-631 | once an incoming edge exists, adding any edges, including outgoing ones, leaves the card unchanged |
| UserController.SingleContact | Sources/App/Controllers/UserController.swift:607-661 | an unknown ad gives 404; a caller without an id or a missing owner gives 500; otherwise the result is the `ContactView` card |
| UserController.ContactLifecycle | Sources/App/Controllers/UserController.swift:510-571 | starting with no edge: after a send, the sender's card is (you: true, other: false) and the owner's is first name only (you: false, other: true). After the owner accepts, both cards are full with both flags set, and each user is the other's contact. Declining instead restores the table |
| UserController.TokensAfterLogin | Sources/App/Controllers/UserController.swift:327-340 | the kept tokens are the newest stored ones, followed by the new token; with two or more stored, at least one is dropped; at most two survive; at most two before means at most two after |
| UserController.TrimTokens | Sources/App/Controllers/UserController.swift:329-335 | the repeat-while loop keeps exactly the last `KeptCount(n)` of the n tokens |
| UserController.Authenticate | Sources/App/Controllers/UserController.swift:323-325 | the first user with that e-mail is returned if the password verifies against its hash, and nothing otherwise; nothing when no user has the e-mail |
| UserController.Login | Sources/App/Controllers/UserController.swift:320-344 | bad credentials give 401 and change nothing; otherwise the user's tokens become `TokensAfterLogin` and the token data carries the new token and the user's role |
| UserController.StoreLoginToken | Sources/App/Controllers/UserController.swift:327-340 | the user's token list becomes `TokensAfterLogin` of the old list; other users' tokens are unchanged |
| UserController.ExpiryIsFinal | Sources/App/Controllers/UserController.swift:759-762 | an expired reset token stays expired at every later time; a token valid at a later time is valid at every earlier time from its creation onwards |
| UserController.FindResetToken | Sources/App/Controllers/UserController.swift:748 | it returns the first row with that token string, or nothing exactly when there is none |
| UserController.ConfirmResetToken | Sources/App/Controllers/UserController.swift:744-775 | the answer is true if and only if the token's row exists, has a creation time, and now < creation time + 3600 s; a found row that is not valid is deleted; otherwise nothing changes |
| UserController.FindResetPair | Sources/App/Controllers/UserController.swift:806 | the token–user join finds the first row with that token whose user exists, and finds nothing exactly when no row with that token has an existing user |
| UserController.UpdatePassword | Sources/App/Controllers/UserController.swift:804-835 | a valid token stores the hashed new password, deletes the reset row, and revokes every bearer token of the user. An expired or undated token is deleted and gives 404. An unknown token or an undecodable password gives 404 and changes nothing |
| UserController.ApplyPasswordReset | Sources/App/Controllers/UserController.swift:819-825 | the user row is saved with the new password and is found by its id afterwards; the reset row is deleted; the user's bearer tokens are all revoked |
| UserController.UsersWithout | Sources/App/Controllers/UserController.swift:160 | afterwards no row has the id; every other row keeps its multiplicity |
| UserController.AdsNotOwnedBy | Sources/App/Controllers/UserController.swift:136-158 | afterwards the user owns no ads; every other ad keeps its multiplicity |
| UserController.ForceDeleteUser | Sources/App/Controllers/UserController.swift:129-173 | an unknown user gives 404. Only an admin or the user itself may delete: a non-admin without an id gets 500 and anyone else 403, and nothing changes. Otherwise the user's ads, the user and its contact edges are deleted |
| UserController.EditUserData | Sources/App/Controllers/UserController.swift:254-261 | the names and e-mail are replaced; id, password and role are kept; afterwards the user is found by its id with the new data; an e-mail taken by another user gives 500 and nothing changes |
| AdController.CreateAd | Sources/App/Controllers/AdController.swift:94-104 | the new ad takes its note and city from the payload and its owner from the caller, with no images, and is appended; a caller without an id gives 500 and nothing changes |
| AdController.HeartIndex | Sources/App/Controllers/AdController.swift:129 | it finds the first heart of the (ad, user) pair, or nothing exactly when the pair has no heart |
| AdController.Toggled | Sources/App/Controllers/AdController.swift:129-135 | an existing heart loses one copy; a missing heart is added exactly once; no other heart changes |
| AdController.ToggleFlipsLike | Sources/App/Controllers/AdController.swift:129-135 | while the (ad, user) heart is unique, a toggle flips whether it exists and never duplicates it; toggling twice restores the table's multiset, and restores the table exactly when the heart was absent |
| AdController.RemoveAppended | Sources/App/Controllers/AdController.swift:129-135 | liking an ad and then unliking it restores the heart table exactly |
| AdController.LikeUnlike | Sources/App/Controllers/AdController.swift:122-138 | a caller without an id gives 500 and an unknown ad gives 404, changing nothing; otherwise it toggles the caller's heart for the ad |
| AdController.AdsWithout | Sources/App/Controllers/AdController.swift:191 | afterwards no ad has the id; every other ad keeps its multiplicity |
| AdController.DeleteAd | Sources/App/Controllers/AdController.swift:161-196 | an unknown ad gives 404; an admin or the owner deletes it; a non-admin without an id gets 500 and anyone else 403, with nothing changed |
| AdController.StoredTexts | Sources/App/Controllers/AdController.swift:533-537 | s is a stored text of the ad if and only if a row (s, ad) exists |
| AdController.AddTexts | Sources/App/Controllers/AdController.swift:545-548 | exactly one row is added for each non-empty text of the set; every other row count is unchanged |
| AdController.RemoveFirstWithText | Sources/App/Controllers/AdController.swift:552-558 | when a stored row has the text, exactly one row equal to it is deleted; otherwise nothing changes |
| AdController.RemoveTexts | Sources/App/Controllers/AdController.swift:550-559 | exactly one stored row is deleted for each text of the set; every other row count is unchanged |
| AdController.ReconcileTags | Sources/App/Controllers/AdController.swift:533-559 | the result is reconciled: a non-empty submitted text not yet stored gains one row; a stored text not submitted loses one row; every other row count is unchanged |
| AdController.ReconcileKeepsSubmitted | Sources/App/Controllers/AdController.swift:537-559 | every non-empty submitted text is present afterwards; texts both stored and submitted are untouched; rows of other ads are untouched |
| AdController.ReconcileDistinct | Sources/App/Controllers/AdController.swift:537-559 | if the stored texts are distinct, the ad afterwards has exactly the submitted texts, each once; an empty text is kept only if it was already stored |
| AdController.FindOwnAd | Sources/App/Controllers/AdController.swift:520 | it returns an ad with that id owned by the caller, or nothing exactly when the caller owns none with that id |
| AdController.UpdateAd | Sources/App/Controllers/AdController.swift:513-594 | only the caller's own ads are found: 404 otherwise, 500 without a caller id, and nothing changes. The note is overwritten. Demands and offers are each reconciled with their submitted lists, independently |
| AdController.CitiesOf | Sources/App/Controllers/AdController.swift:348 | a city is listed for a department if and only if it belongs to it |
| AdController.CitiesOfRing | Sources/App/Controllers/AdController.swift:348-353 | a city is listed if and only if it belongs to a department of the ring |
| AdController.AdsOfCity | Sources/App/Controllers/AdController.swift:354 | at most 50 ads, each one of that city's; with fewer than 50 listed, every ad of the city is listed |
| AdController.AdsOfCityAppend | Sources/App/Controllers/AdController.swift:354 | a new ad row is listed, at the end, exactly when it belongs to the city and fewer than 50 ads of the city come before it; together with the empty table this fixes the listing as the city's first 50 ads in storage order |
| AdController.AdsOfCities | Sources/App/Controllers/AdController.swift:354-359 | the listing holds at most 50 ads for each listed city |
| AdController.AdsOfCitiesOne | Sources/App/Controllers/AdController.swift:354-359 | the listing for a single city is that city's `AdsOfCity`; with `AdsOfCitiesAppend` this makes the listing the cities' lists, city after city |
| AdController.AdsOfCitiesMembers | Sources/App/Controllers/AdController.swift:354-359 | an ad is listed if and only if it is in the `AdsOfCity` list of one of the cities; every listed ad is an ad of the table and belongs to one of the listed cities |
| AdController.AdsOfCitiesAppend | Sources/App/Controllers/AdController.swift:353-359 | listing two runs of cities lists the first run's ads before the second's |
| AdController.Ring | Sources/App/Controllers/AdController.swift:346-347 | the selected department comes first, then exactly its perimeter, in order; all have ids |
| AdController.SelectedDepartmentFirst | Sources/App/Controllers/AdController.swift:346-359 | the ads of the selected department's cities come first, then those of its perimeter's cities; the listing holds at most 50 ads for each listed city |
| AdController.BuildObject | Sources/App/Controllers/AdController.swift:361-375 | the object of one ad carries its note, its id, exactly its demands and offers, a city with the ad's city id and a department with that city's department id; it fails with 500 exactly when the city or its department is missing |
| AdController.BuildObjects | Sources/App/Controllers/AdController.swift:361-377 | one object per ad; any failure is a 500 |
| AdController.BuildObjectsSpec | Sources/App/Controllers/AdController.swift:361-377 | the list is built exactly when every ad has its city and department, and then its k-th object is the object of the k-th ad |
| AdController.AdsOfPerimeter | Sources/App/Controllers/AdController.swift:340-385 | an unknown department gives 404. Otherwise it succeeds exactly when every listed ad has its city and that city's department, and fails with 500 otherwise; on success the k-th object describes the k-th listed ad (note, id, demands, offers, its city and that city's department), with the department as `selectedDepartment` |
| AwsController.AppendImage | Sources/App/Controllers/AwsController.swift:200-205 | a missing list becomes exactly [name]; an existing list gets the name at the end with the earlier names kept in order |
| AwsController.AddImage | Sources/App/Controllers/AwsController.swift:194-208 | an unknown ad gives 500 and no ad changes; otherwise the ad is saved with the extended list |
| AwsController.ObjectUrl | Sources/App/Controllers/AwsController.swift:115-120 | the URL is the base, then the image folder, then the file name, as successive path components |
| AwsController.SignedUrls | Sources/App/Controllers/AwsController.swift:108-130 | one signed URL per file name, in the same order; it succeeds if and only if there are no files, or the base parses and every signature succeeds |
| AwsController.ImageUrls | Sources/App/Controllers/AwsController.swift:102-132 | an unknown ad gives 404; an ad without an image list gives 500; otherwise it returns `SignedUrls` of its images |
| AwsController.UploadFilename | Sources/App/Controllers/AwsController.swift:159 | the upload file name is the UUID string followed by ".png" |
| AwsController.PreparePresignedUrl | Sources/App/Controllers/AwsController.swift:155-182 | an unparsable base or a failed signature gives 500 with no change. Otherwise it returns the signed PUT URL of the new file, and that file name is appended to the ad's images when the ad exists. The append is not awaited, so the URL is returned even for a missing ad |
| AwsController.PostImage | Sources/App/Controllers/AwsController.swift:58-83 | no ad id gives 500 before anything else; otherwise the image goes to the URL of `PreparePresignedUrl` |
| OfferController.OffersFor | Sources/App/Controllers/OfferController.swift:66-67 | one offer per string, in order, each with the ad's id; no filtering, so the length equals the input length |
| OfferController.CreateOffers | Sources/App/Controllers/OfferController.swift:56-73 | an unknown ad gives 404 and a caller without an id 500; only the owner may insert (no admin bypass; others get 403); the owner's offers are appended; any error inserts nothing |

## Left out

- I/O and outside services: the HTTP PUT of the image bytes, S3 deletion of ad images, and e-mail sending. Only the signed URL the upload goes to is modelled.
- Password hashing and verification, token generation, UUID generation and the clock are parameters. Base64 decoding of the login credentials is left out, and so is the `fatalError` raised when they are corrupt. `Login` takes the decoded strings.
- Futures and their ordering: unawaited deletes and saves are modelled as completed, in program order. The exception is `adImage` in `preparePresignedUrl`, whose failure does not reach the caller. Concurrent requests are not modelled.
- UserController.ForceDeleteUser: the `willDelete` hooks it calls on each ad and on the user are not defined in `Ad.swift` or `User.swift`. The child rows of the deleted ads (demands, offers, hearts, images) and the user's bearer and reset tokens are therefore not deleted in the model.
- AdController.DeleteAd: `Ad.willSoftDelete` is not defined in `Ad.swift`, so the deletion of the ad's demands, offers and hearts is not modelled.
- AdController.UpdateAd: `City.updateCity` is not defined in `City.swift`, so the edit of the ad's city is not modelled.
- AdController.ReconcileTags: Swift visits sets in no particular order, so the new rows are specified as a multiset, not as a sequence.
- AdController.ReconcileTags: Swift compares strings (`Set<String>.subtracting`, `==`) up to Unicode canonical equivalence, so "é" as one code point equals "e" followed by a combining accent. The model compares strings code point by code point: for two canonically equivalent but differently encoded texts it adds one row and deletes one where the service changes nothing.
- UserController.Contacts and DepartmentEntity.PerimeterOf: a sibling query is an SQL join with no `ORDER BY`. The model lists results in the storage order of the pivot rows.
- A Fluent lookup of a missing parent (`ad.city`, `city.department`) is modelled as a 500. In a consistent store it cannot happen.
- The remaining unique index, `User.email`, is checked only in `EditUserData`. Registration is not part of this model.
- URL parsing is reduced to whether the configured base URL parses (`base` is `None` when it does not).
