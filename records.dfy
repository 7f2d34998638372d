/** The records kept in the five collections of the store, and the
    errors the repository reports. Ids and timestamps are supplied by the
    caller (the source takes them from the clock). */
module Records {
  import opened Outcomes

  /** The six validation failures the repository raises. */
  datatype DbError =
    | UsernameExists      // registration: the username is taken
    | MobileExists        // registration: the mobile number is taken
    | InvalidCredentials  // login: no farmer has this username and password
    | UsernameNotFound    // recovery: no farmer has this username
    | SecurityMismatch    // recovery: an answer differs
    | FarmerNotFound      // password reset: no farmer has this username

  /** What the registration form submits. */
  datatype FarmerData = FarmerData(
    name: string, mobile: string, email: string, country: string, pin: string,
    city: string, state: string, aadhaar: string, username: string, password: string,
    securityQ1: string, securityA1: string, securityQ2: string, securityA2: string)

  /** A stored farmer account: the submitted data plus an id and a creation time. */
  datatype Farmer = Farmer(
    id: string,
    name: string, mobile: string, email: string, country: string, pin: string,
    city: string, state: string, aadhaar: string, username: string, password: string,
    securityQ1: string, securityA1: string, securityQ2: string, securityA2: string,
    createdAt: int)

  /** The record registerFarmer stores: the id first, then the form data, then the creation time. */
  function NewFarmer(id: string, d: FarmerData, now: int): (f: Farmer)
    ensures DataOf(f) == d && f.id == id && f.createdAt == now
  {
    Farmer(id, d.name, d.mobile, d.email, d.country, d.pin, d.city, d.state, d.aadhaar,
           d.username, d.password, d.securityQ1, d.securityA1, d.securityQ2, d.securityA2, now)
  }

  /** The logged-in farmer as kept in the session slot: no password, no security answers. */
  datatype Session = Session(id: string, name: string, username: string, mobile: string)

  /** The form data a stored account was registered with. */
  function DataOf(f: Farmer): FarmerData
  {
    FarmerData(f.name, f.mobile, f.email, f.country, f.pin, f.city, f.state, f.aadhaar,
               f.username, f.password, f.securityQ1, f.securityA1, f.securityQ2, f.securityA2)
  }

  function SessionOf(f: Farmer): (s: Session)
    ensures s.id == f.id && s.name == f.name && s.username == f.username && s.mobile == f.mobile
  {
    Session(f.id, f.name, f.username, f.mobile)
  }

  /** What the add-product form submits. */
  datatype ProductData = ProductData(
    name: string, category: string, quantity: int, unit: string, price: int,
    description: string, location: string)

  /** A listing. A counter may be missing in stored data; it then counts as 0. */
  datatype Product = Product(
    id: string, farmerId: string,
    name: string, category: string, quantity: int, unit: string, price: int,
    description: string, location: string,
    views: Option<nat>, inquiries: Option<nat>, image: string, createdAt: int)

  /** `(counter || 0)` */
  function Count(counter: Option<nat>): nat
  {
    match counter
    case None => 0
    case Some(n) => n
  }

  /** Device and location details of a visitor, as the device probe and the IP lookup report them. */
  datatype ClientInfo = ClientInfo(
    deviceType: string, osName: string, osVersion: string, browserName: string,
    browserVersion: string, screenResolution: string,
    ip: string, city: string, region: string, country: string)

  /** One opening of a product's detail view. */
  datatype View = View(id: string, productId: string, client: ClientInfo, viewedAt: int)

  /** One successful login. */
  datatype LoginRecord = LoginRecord(id: string, farmerId: string, client: ClientInfo, loginTime: int)
}
