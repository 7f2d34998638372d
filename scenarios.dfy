/** What short sequences of repository calls return, each stated for a fresh store. */
module Scenarios {
  import opened Outcomes
  import opened Records
  import opened Accounts
  import opened Catalog
  import opened Repository

  function Alice(): FarmerData
  {
    FarmerData("Alice", "9000000001", "alice@example.com", "India", "600001", "Chennai", "Tamil Nadu",
               "1234", "alice", "pw123", "color", "blue", "pet", "Tiger")
  }

  /** Registering a taken username fails and leaves one account with it. */
  method RegisterTwice() returns (second: Result<Farmer, DbError>, count: nat)
    ensures second == Failure(UsernameExists) && count == 1
  {
    var db := new FarmerDatabase();
    var first := db.RegisterFarmer(Alice(), "1", 100);
    assert db.farmers[0].username == "alice";
    second := db.RegisterFarmer(Alice().(mobile := "9000000002"), "2", 200);
    count := |db.farmers|;
  }

  /** Registering a taken mobile under a new username fails with MobileExists. */
  method RegisterSameMobile() returns (second: Result<Farmer, DbError>)
    ensures second == Failure(MobileExists)
  {
    var db := new FarmerDatabase();
    var first := db.RegisterFarmer(Alice(), "1", 100);
    assert db.farmers[0].mobile == "9000000001";
    second := db.RegisterFarmer(Alice().(username := "bob"), "2", 200);
  }

  /** Log in with the right password, fail with a wrong one, then log out. */
  method LoginLogout() returns (good: Result<Farmer, DbError>, bad: Result<Farmer, DbError>,
                                during: Option<Session>, after: Option<Session>)
    ensures good.Success? && good.value.username == "alice" && good.value.password == "pw123"
    ensures bad == Failure(InvalidCredentials)
    ensures during == Some(Session("1", "Alice", "alice", "9000000001"))
    ensures after == None
  {
    var db := new FarmerDatabase();
    var registered := db.RegisterFarmer(Alice(), "1", 100);
    assert Matches(db.farmers[0], ByCredentials("alice", "pw123"));
    good := db.LoginFarmer("alice", "pw123");
    bad := db.LoginFarmer("alice", "wrong");
    during := db.GetCurrentFarmer();
    db.Logout();
    after := db.GetCurrentFarmer();
  }

  lemma CaseFolding()
    ensures Text.Lower("Blue") == Text.Lower("blue") && Text.Lower("TIGER") == Text.Lower("Tiger")
    ensures Text.Lower("red") != Text.Lower("blue")
  {
    var a, b := Text.Lower("Blue"), Text.Lower("blue");
    assert forall i :: 0 <= i < 4 ==> a[i] == b[i];
    var c, d := Text.Lower("TIGER"), Text.Lower("Tiger");
    assert forall i :: 0 <= i < 5 ==> c[i] == d[i];
  }

  /** Security answers match regardless of case. */
  method RecoveryIgnoresCase() returns (r: Result<Farmer, DbError>)
    ensures r.Success? && r.value.username == "alice"
  {
    var db := new FarmerDatabase();
    var registered := db.RegisterFarmer(Alice(), "1", 100);
    assert Matches(db.farmers[0], ByUsername("alice"));
    CaseFolding();
    r := db.VerifySecurityQuestions("alice", "Blue", "TIGER");
  }

  /** A different answer is refused. */
  method RecoveryWrongAnswer() returns (r: Result<Farmer, DbError>)
    ensures r == Failure(SecurityMismatch)
  {
    var db := new FarmerDatabase();
    var registered := db.RegisterFarmer(Alice(), "1", 100);
    assert Matches(db.farmers[0], ByUsername("alice"));
    CaseFolding();
    r := db.VerifySecurityQuestions("alice", "red", "Tiger");
  }

  /** An unknown username is reported as such. */
  method RecoveryUnknownUser() returns (r: Result<Farmer, DbError>)
    ensures r == Failure(UsernameNotFound)
  {
    var db := new FarmerDatabase();
    var registered := db.RegisterFarmer(Alice(), "1", 100);
    assert db.farmers == [NewFarmer("1", Alice(), 100)];
    r := db.VerifySecurityQuestions("carol", "blue", "Tiger");
  }

  /** A new product viewed twice has two views. */
  method ViewTwice(data: ProductData) returns (views: Option<nat>)
    ensures views == Some(2)
  {
    var db := new FarmerDatabase();
    var p := db.AddProduct("1", data, "p1", 100);
    assert FindProduct(db.products, "p1") == Some(0);
    db.IncrementViews("p1");
    assert db.products[0].views == Some(1) && db.products[0].id == "p1";
    assert FindProduct(db.products, "p1") == Some(0);
    db.IncrementViews("p1");
    views := db.products[0].views;
  }

  /** A delete by another farmer is ignored; the owner's delete removes the product. */
  method DeleteByOwnerOnly(data: ProductData) returns (kept: nat, left: nat)
    ensures kept == 1 && left == 0
  {
    var db := new FarmerDatabase();
    var p := db.AddProduct("1", data, "p1", 100);
    db.DeleteProduct("p1", "2");
    kept := |db.products|;
    db.DeleteProduct("p1", "1");
    left := |db.products|;
  }
}
