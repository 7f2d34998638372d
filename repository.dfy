/** The repository: five collections of a browser key-value store, each read whole,
    changed in memory and written back. A key never written reads as an empty collection;
    the session slot holds zero or one record. */
module Repository {
  import opened Outcomes
  import opened Records
  import opened Text
  import opened Accounts
  import opened Catalog
  import ProductImages

  class FarmerDatabase {
    var farmers: seq<Farmer>
    var products: seq<Product>
    var session: Option<Session>
    var views: seq<View>
    var loginHistory: seq<LoginRecord>

    /** No two farmers share a username or a mobile number. */
    predicate Valid()
      reads this
    {
      Unique(farmers)
    }

    /** A store none of whose keys has been written yet: every collection reads as empty. */
    constructor ()
      ensures Valid()
      ensures farmers == [] && products == [] && session == None && views == [] && loginHistory == []
    {
      farmers, products, session, views, loginHistory := [], [], None, [], [];
    }

    /** registerFarmer: refuse a taken username, then a taken mobile; otherwise append the new
        account at the end. */
    method RegisterFarmer(data: FarmerData, id: string, now: int) returns (r: Result<Farmer, DbError>)
      modifies this`farmers
      ensures r == if UsernameTaken(old(farmers), data.username) then Failure(UsernameExists)
                   else if MobileTaken(old(farmers), data.mobile) then Failure(MobileExists)
                   else Success(NewFarmer(id, data, now))
      ensures farmers == if r.Success? then old(farmers) + [r.value] else old(farmers)
      ensures old(Valid()) ==> Valid()
    {
      if FindFarmer(farmers, ByUsername(data.username)).Some? {
        return Failure(UsernameExists);
      }
      if FindFarmer(farmers, ByMobile(data.mobile)).Some? {
        return Failure(MobileExists);
      }
      var farmer := NewFarmer(id, data, now);
      if Valid() {
        AppendKeepsUnique(farmers, farmer);
      }
      farmers := farmers + [farmer];
      r := Success(farmer);
    }

    /** loginFarmer: the first farmer with this username and password becomes the session
        (without password or security answers) and is returned. */
    method LoginFarmer(username: string, password: string) returns (r: Result<Farmer, DbError>)
      modifies this`session
      ensures r.Success? <==> exists i :: 0 <= i < |farmers| && farmers[i].username == username && farmers[i].password == password
      ensures r.Failure? ==> r.error == InvalidCredentials && session == old(session)
      ensures r.Success? ==> r.value == farmers[FindFarmer(farmers, ByCredentials(username, password)).value] &&
                             session == Some(SessionOf(r.value))
    {
      match FindFarmer(farmers, ByCredentials(username, password))
      case None =>
        return Failure(InvalidCredentials);
      case Some(i) =>
        session := Some(SessionOf(farmers[i]));
        return Success(farmers[i]);
    }

    /** getCurrentFarmer: the session record, if any. */
    function GetCurrentFarmer(): (current: Option<Session>)
      reads this
      ensures current == session
    {
      session
    }

    /** logout: clear the session slot. */
    method Logout()
      modifies this`session
      ensures GetCurrentFarmer() == None
    {
      session := None;
    }

    /** verifySecurityQuestions: find the first farmer with the username and compare both
        stored answers with the given ones, ignoring case. Reads the store and changes nothing. */
    function VerifySecurityQuestions(username: string, answer1: string, answer2: string): (r: Result<Farmer, DbError>)
      reads this
      ensures r == Failure(UsernameNotFound) <==> !UsernameTaken(farmers, username)
      ensures r.Success? ==> r.value == farmers[FindFarmer(farmers, ByUsername(username)).value] &&
                             Lower(r.value.securityA1) == Lower(answer1) && Lower(r.value.securityA2) == Lower(answer2)
      ensures Valid() && r.Success? ==> forall j :: 0 <= j < |farmers| && farmers[j].username == username ==> farmers[j] == r.value
      ensures r.Failure? ==> r.error == UsernameNotFound || r.error == SecurityMismatch
      ensures UsernameTaken(farmers, username) ==>
                var f := farmers[FindFarmer(farmers, ByUsername(username)).value];
                r.Success? <==> Lower(f.securityA1) == Lower(answer1) && Lower(f.securityA2) == Lower(answer2)
    {
      match FindFarmer(farmers, ByUsername(username))
      case None => Failure(UsernameNotFound)
      case Some(i) =>
        var f := farmers[i];
        if Lower(f.securityA1) != Lower(answer1) || Lower(f.securityA2) != Lower(answer2) then Failure(SecurityMismatch)
        else Success(f)
    }

    /** resetPassword: overwrite the password of the first farmer with the username. */
    method ResetPassword(username: string, newPassword: string) returns (r: Outcome<DbError>)
      modifies this`farmers
      ensures r == Fail(FarmerNotFound) <==> !UsernameTaken(old(farmers), username)
      ensures r.Fail? ==> r.error == FarmerNotFound && farmers == old(farmers)
      ensures r.Pass? ==> var i := FindFarmer(old(farmers), ByUsername(username)).value;
                          farmers == old(farmers)[i := old(farmers)[i].(password := newPassword)]
      ensures old(Valid()) ==> Valid()
    {
      match FindFarmer(farmers, ByUsername(username))
      case None =>
        return Fail(FarmerNotFound);
      case Some(i) =>
        if Valid() {
          SetPasswordKeepsUnique(farmers, i, newPassword);
        }
        farmers := farmers[i := farmers[i].(password := newPassword)];
        return Pass;
    }

    /** addProduct: append a listing owned by farmerId with both counters at 0 and the picture
        its name calls for. */
    method AddProduct(farmerId: string, data: ProductData, id: string, now: int) returns (p: Product)
      modifies this`products
      ensures p.id == id && p.farmerId == farmerId && p.createdAt == now
      ensures p.name == data.name && p.category == data.category && p.quantity == data.quantity &&
              p.unit == data.unit && p.price == data.price && p.description == data.description &&
              p.location == data.location
      ensures p.views == Some(0) && p.inquiries == Some(0) && p.image == ProductImages.ImageFor(data.name)
      ensures products == old(products) + [p]
    {
      var image := ProductImages.GetProductImage(data.name);
      p := Product(id, farmerId, data.name, data.category, data.quantity, data.unit, data.price,
                   data.description, data.location, Some(0), Some(0), image, now);
      products := products + [p];
    }

    /** getFarmerProducts */
    function GetFarmerProducts(farmerId: string): (mine: seq<Product>)
      reads this
      ensures forall i :: 0 <= i < |mine| ==> mine[i].farmerId == farmerId
      ensures forall p :: multiset(mine)[p] == if p.farmerId == farmerId then multiset(products)[p] else 0
    {
      OwnedBy(products, farmerId)
    }

    /** deleteProduct: keep every product that does not have both this id and this owner. */
    method DeleteProduct(productId: string, farmerId: string)
      modifies this`products
      ensures products == Remove(old(products), productId, farmerId)
    {
      products := Remove(products, productId, farmerId);
    }

    /** incrementViews: add one view to the first product with the id, if there is one. */
    method IncrementViews(productId: string)
      modifies this`products
      ensures products == Increment(old(products), productId, Views)
      ensures FindProduct(old(products), productId).None? ==> products == old(products)
      ensures FindProduct(old(products), productId).Some? ==>
                var i := FindProduct(old(products), productId).value;
                products == old(products)[i := old(products)[i].(views := Some(Count(old(products)[i].views) + 1))]
    {
      products := Increment(products, productId, Views);
    }

    /** incrementInquiries: add one inquiry to the first product with the id, if there is one. */
    method IncrementInquiries(productId: string)
      modifies this`products
      ensures products == Increment(old(products), productId, Inquiries)
      ensures FindProduct(old(products), productId).None? ==> products == old(products)
      ensures FindProduct(old(products), productId).Some? ==>
                var i := FindProduct(old(products), productId).value;
                products == old(products)[i := old(products)[i].(inquiries := Some(Count(old(products)[i].inquiries) + 1))]
    {
      products := Increment(products, productId, Inquiries);
    }

    /** getFarmerByProductId */
    function GetFarmerByProductId(productId: string): (owner: Option<Farmer>)
      reads this
      ensures owner.None? <==> FindProduct(products, productId).None? ||
                               FindFarmer(farmers, ById(products[FindProduct(products, productId).value].farmerId)).None?
      ensures owner.Some? ==> owner.value == farmers[FindFarmer(farmers, ById(products[FindProduct(products, productId).value].farmerId)).value]
    {
      OwnerOf(farmers, products, productId)
    }

    /** addProductView: append a view record, then count the view on the product. */
    method AddProductView(productId: string, client: ClientInfo, id: string, now: int) returns (v: View)
      modifies this`views, this`products
      ensures v == View(id, productId, client, now)
      ensures views == old(views) + [v]
      ensures products == Increment(old(products), productId, Views)
    {
      v := View(id, productId, client, now);
      views := views + [v];
      IncrementViews(productId);
    }

    /** getUniqueViewersCount */
    function GetUniqueViewersCount(farmerId: string): (n: nat)
      reads this
      ensures n <= |views|
      ensures GetFarmerProducts(farmerId) == [] ==> n == 0
    {
      UniqueViewers(products, views, farmerId)
    }

    /** trackLogin: append a login record. */
    method TrackLogin(farmerId: string, client: ClientInfo, id: string, now: int)
      modifies this`loginHistory
      ensures loginHistory == old(loginHistory) + [LoginRecord(id, farmerId, client, now)]
    {
      loginHistory := loginHistory + [LoginRecord(id, farmerId, client, now)];
    }
  }
}
